/** What requests ask for and where they can be. */
module Requests {
  import opened Wire
  import opened Protocol
  import opened Buffers
  import opened Irps

  /** Points that serve a get-event request with `pc.irp`. */
  predicate ForGet(pc: Pc) {
    || pc.HavePending? || pc.Decided? || pc.Settle? || pc.CountRefusal? || pc.Finish?
    || pc.GetLock? || pc.TryPop? || pc.Popped? || pc.Checking? || pc.MarkEarly? || pc.Park? || pc.Rejected?
  }

  ghost predicate IsGet(s: State, irp: Irp) {
    irp in s.io.reqs && s.io.reqs[irp].GetEvent?
  }

  ghost predicate PcRequest(s: State, pc: Pc) {
    && (ForGet(pc) ==> IsGet(s, pc.irp))
    && (pc.Rejected? ==> pc.irp in s.rec.rejectedBy)
    && (pc.CleanupSwap? || pc.CleanupCancel? ==> pc.irp in s.io.reqs && s.io.reqs[pc.irp].Cleanup?)
    && (pc.CleanupCancel? ==> IsGet(s, pc.taken))
    && (pc.UnloadCancel? ==> IsGet(s, pc.irp))
    && (pc.ParkedIrp? || pc.MarkLate? ==> IsGet(s, pc.parked))
    && (pc.Reply? ==>
          && pc.irp in s.io.reqs
          && (IsGet(s, pc.irp) ==> pc.irp in s.rec.rejectedBy)
          && pc.status == ReplyStatus(s.io.reqs[pc.irp]))
  }

  /** How a request that gets no event is answered at once. */
  function ReplyStatus(req: Request): Status {
    match req
    case GetEvent(_) => Unsuccessful
    case Cleanup => Success
    case OpenClose => Success
    case Foreign => InvalidRequest
  }

  ghost predicate RequestInv(s: State) {
    && (forall i :: i in s.io.reqs ==>
          i in s.io.sysbuf && |s.io.sysbuf[i]| == if s.io.reqs[i].GetEvent? then s.io.reqs[i].outlen else 0)
    && (s.sh.pending.Some? ==> IsGet(s, s.sh.pending.value))
    && (forall t :: t in s.pcs ==> PcRequest(s, s.pcs[t]))
    && (forall i :: i in s.rec.rejectedBy ==> s.rec.rejectedBy[i] != i)
  }

  lemma RequestFacts(s: State, t: Tid)
    requires RequestInv(s) && t in s.pcs
    ensures PcRequest(s, s.pcs[t])
    ensures s.sh.pending.Some? ==> IsGet(s, s.sh.pending.value)
  {
  }

  /** The step sends no request; lengths of system buffers and earlier rejections stay. */
  lemma RequestsKept(s: State, s': State, t: Tid)
    requires RequestInv(s) && Moves(s, s', t) && s'.io.reqs == s.io.reqs
    requires forall i :: i in s.io.sysbuf ==> i in s'.io.sysbuf && |s'.io.sysbuf[i]| == |s.io.sysbuf[i]|
    requires s'.sh.pending.Some? ==> IsGet(s, s'.sh.pending.value)
    requires forall i :: i in s.rec.rejectedBy ==> i in s'.rec.rejectedBy
    requires forall i :: i in s'.rec.rejectedBy ==> s'.rec.rejectedBy[i] != i
    requires PcRequest(s', s'.pcs[t])
    ensures RequestInv(s')
  {
    forall u | u in s'.pcs ensures PcRequest(s', s'.pcs[u]) {
      if u != t { assert PcRequest(s, s.pcs[u]); }
    }
    hide PcRequest;
  }

  lemma SameRequests(s: State, s': State, t: Tid)
    requires RequestInv(s) && Moves(s, s', t) && s'.io.reqs == s.io.reqs && s'.io.sysbuf == s.io.sysbuf
    requires s'.rec.rejectedBy == s.rec.rejectedBy && PcRequest(s', s'.pcs[t])
    requires s'.sh.pending.Some? ==> IsGet(s, s'.sh.pending.value)
    ensures RequestInv(s')
  {
    RequestsKept(s, s', t);
  }

  lemma CopiedRequest(s: State, s': State, t: Tid, ev: Slot, irp: Irp)
    requires RequestInv(s) && Moves(s, s', t) && s'.io == CopyOut(s, ev, irp).io
    requires s'.rec.rejectedBy == s.rec.rejectedBy && s'.sh.pending == s.sh.pending && PcRequest(s', s'.pcs[t])
    ensures RequestInv(s')
  {
    RequestsKept(s, s', t);
  }

  lemma TurnedAway(s: State, s': State, t: Tid, irp: Irp)
    requires RequestInv(s) && Moves(s, s', t) && s'.io == s.io && s'.sh.pending == s.sh.pending
    requires s.sh.pending.Some? && s.sh.pending.value != irp
    requires s'.rec.rejectedBy == s.rec.rejectedBy[irp := s.sh.pending.value] && PcRequest(s', s'.pcs[t])
    ensures RequestInv(s')
  {
    RequestsKept(s, s', t);
  }

  lemma NewRequest(s: State, s': State, t: Tid, irp: Irp, req: Request, junk: seq<byte>)
    requires RequestInv(s) && Moves(s, s', t) && irp !in s.io.reqs
    requires s'.io.reqs == s.io.reqs[irp := req] && s'.io.sysbuf == s.io.sysbuf[irp := junk]
    requires |junk| == if req.GetEvent? then req.outlen else 0
    requires s'.sh.pending == s.sh.pending && s'.rec == s.rec && PcRequest(s', s'.pcs[t])
    ensures RequestInv(s')
  {
    forall u | u in s'.pcs ensures PcRequest(s', s'.pcs[u]) {
      if u != t { assert PcRequest(s, s.pcs[u]); }
    }
    hide PcRequest;
  }

  /** The IRP in the slot is not the one a thread is trying to park. */
  lemma ParkedIsAnother(s: State, t: Tid)
    requires IrpInv(s) && t in s.pcs && MainIrp(s.pcs[t]).Some? && s.sh.pending.Some?
    ensures s.sh.pending.value != MainIrp(s.pcs[t]).value
  {
    assert IrpOf(s, Main(t)) == MainIrp(s.pcs[t]);
    assert IrpOf(s, PendingSlot) == s.sh.pending;
    hide MainIrp;
  }

  lemma BuildKeepsRequests(s: State, t: Tid, a: BuildStep)
    requires RequestInv(s) && t in s.pcs && BuildEnabled(s, t, a)
    ensures RequestInv(DoBuild(s, t, a))
  {
    hide RequestInv, EncodeHeader, PcRequest;
    RequestFacts(s, t);
    NoRequest(DoBuild(s, t, a), DoBuild(s, t, a).pcs[t]);
    SameRequests(s, DoBuild(s, t, a), t);
  }

  /** Building an event serves no request. */
  lemma NoRequest(s: State, pc: Pc)
    requires pc.Idle? || pc.InCallback? || pc.CountOom? || pc.StampDrop? || pc.StampTrunc? || pc.Filling?
    ensures PcRequest(s, pc)
  {
  }

  lemma PushKeepsRequests(c: Config, s: State, t: Tid, a: SubmitStep)
    requires RequestInv(s) && t in s.pcs && SubmitEnabled(c, s, t, a) && Pushes(a)
    ensures RequestInv(DoSubmit(c, s, t, a))
  {
    hide RequestInv;
    RequestFacts(s, t);
    SameRequests(s, DoSubmit(c, s, t, a), t);
  }

  lemma HandOverKeepsRequests(c: Config, s: State, t: Tid, a: SubmitStep)
    requires RequestInv(s) && t in s.pcs && SubmitEnabled(c, s, t, a) && !Pushes(a)
    ensures RequestInv(DoSubmit(c, s, t, a))
  {
    hide RequestInv, CopyFaults, TouchFaults;
    RequestFacts(s, t);
    var s' := DoSubmit(c, s, t, a);
    if a.Decide? && s'.pcs[t].fits { CopiedRequest(s, s', t, s.pcs[t].ev, s.pcs[t].irp); } else { SameRequests(s, s', t); }
  }

  lemma SubmitKeepsRequests(c: Config, s: State, t: Tid, a: SubmitStep)
    requires RequestInv(s) && t in s.pcs && SubmitEnabled(c, s, t, a)
    ensures RequestInv(DoSubmit(c, s, t, a))
  {
    hide *;
    if Pushes(a) { PushKeepsRequests(c, s, t, a); } else { HandOverKeepsRequests(c, s, t, a); }
  }

  lemma ParkKeepsRequests(s: State, t: Tid)
    requires RequestInv(s) && IrpInv(s) && t in s.pcs && GetEnabled(s, t, DoPark)
    ensures RequestInv(ParkStep(s, t))
  {
    hide RequestInv, IrpInv;
    RequestFacts(s, t);
    var s' := ParkStep(s, t);
    if s.sh.pending.Some? {
      ParkedIsAnother(s, t);
      TurnedAway(s, s', t, s.pcs[t].irp);
    } else {
      SameRequests(s, s', t);
    }
  }

  lemma MarkKeepsRequests(c: Config, s: State, t: Tid, a: GetStep)
    requires RequestInv(s) && t in s.pcs && GetEnabled(s, t, a) && Parks(a) && !a.DoPark?
    ensures RequestInv(DoGet(c, s, t, a))
  {
    hide RequestInv;
    RequestFacts(s, t);
    SameRequests(s, DoGet(c, s, t, a), t);
  }

  lemma FetchKeepsRequests(c: Config, s: State, t: Tid, a: GetStep)
    requires RequestInv(s) && t in s.pcs && GetEnabled(s, t, a) && !Parks(a)
    ensures RequestInv(DoGet(c, s, t, a))
  {
    hide RequestInv, CopyFaults;
    RequestFacts(s, t);
    var s' := DoGet(c, s, t, a);
    if a.Check? && s'.pcs[t].fits { CopiedRequest(s, s', t, s.pcs[t].ev, s.pcs[t].irp); } else { SameRequests(s, s', t); }
  }

  lemma GetKeepsRequests(c: Config, s: State, t: Tid, a: GetStep)
    requires RequestInv(s) && IrpInv(s) && t in s.pcs && GetEnabled(s, t, a)
    ensures RequestInv(DoGet(c, s, t, a))
  {
    hide RequestInv, IrpInv, GetEnabled, ParkStep;
    if a.DoPark? {
      ParkKeepsRequests(s, t);
    } else if Parks(a) {
      MarkKeepsRequests(c, s, t, a);
    } else {
      FetchKeepsRequests(c, s, t, a);
    }
  }

  lemma SettleKeepsRequests(s: State, t: Tid, a: IrpStep)
    requires RequestInv(s) && t in s.pcs && IrpEnabled(s, t, a) && Settles(a)
    ensures RequestInv(DoIrp(s, t, a))
  {
    hide RequestInv;
    RequestFacts(s, t);
    SameRequests(s, DoIrp(s, t, a), t);
  }

  lemma DispatchKeepsRequests(s: State, t: Tid, a: IrpStep)
    requires RequestInv(s) && t in s.pcs && IrpEnabled(s, t, a) && !Settles(a)
    ensures RequestInv(DoIrp(s, t, a))
  {
    hide RequestInv;
    RequestFacts(s, t);
    var s' := DoIrp(s, t, a);
    if a.Arrive? { NewRequest(s, s', t, a.irp, a.req, a.junk); } else { SameRequests(s, s', t); }
  }

  lemma IrpKeepsRequests(s: State, t: Tid, a: IrpStep)
    requires RequestInv(s) && t in s.pcs && IrpEnabled(s, t, a)
    ensures RequestInv(DoIrp(s, t, a))
  {
    hide *;
    if Settles(a) { SettleKeepsRequests(s, t, a); } else { DispatchKeepsRequests(s, t, a); }
  }

  lemma UnloadKeepsRequests(s: State, t: Tid, a: UnloadStep)
    requires RequestInv(s) && t in s.pcs && UnloadEnabled(s, t, a)
    ensures RequestInv(DoUnload(s, t, a))
  {
    hide *;
    if Drains(a) { DrainKeepsRequests(s, t, a); } else { CancelKeepsRequests(s, t, a); }
  }

  lemma DrainKeepsRequests(s: State, t: Tid, a: UnloadStep)
    requires RequestInv(s) && t in s.pcs && UnloadEnabled(s, t, a) && Drains(a)
    ensures RequestInv(DoUnload(s, t, a))
  {
    hide RequestInv, NoneRunning;
    RequestFacts(s, t);
    SameRequests(s, DoUnload(s, t, a), t);
  }

  lemma CancelKeepsRequests(s: State, t: Tid, a: UnloadStep)
    requires RequestInv(s) && t in s.pcs && UnloadEnabled(s, t, a) && !Drains(a)
    ensures RequestInv(DoUnload(s, t, a))
  {
    hide RequestInv, NoneRunning;
    RequestFacts(s, t);
    SameRequests(s, DoUnload(s, t, a), t);
  }
}

/** The bytes an IRP receives are the bytes the producer built, on both delivery paths, and every
    completion of a get-event IRP is one of four outcomes. */
module Delivery {
  import opened Wire
  import opened Protocol
  import opened Buffers
  import opened Irps
  import opened Fates
  import opened Contents
  import opened Requests

  /** The event a settling thread deals with. */
  function Dealt(pc: Pc): Slot
    requires pc.Decided? || pc.Settle? || pc.CountRefusal? || pc.Finish?
  {
    if pc.Decided? || pc.Settle? then pc.ev else pc.gone
  }

  predicate Copied(pc: Pc) { (pc.Decided? || pc.Settle? || pc.Finish?) && pc.fits }

  predicate Refusing(pc: Pc) { pc.CountRefusal? || ((pc.Decided? || pc.Settle? || pc.Finish?) && !pc.fits) }

  /** The system buffer of `irp` starts with the bytes of the event as it was submitted. */
  ghost predicate CopyOk(s: State, ev: Slot, irp: Irp) {
    && ev.data in s.rec.built && |s.rec.built[ev.data]| == ev.size
    && irp in s.io.sysbuf && ev.size <= |s.io.sysbuf[irp]|
    && s.io.sysbuf[irp][..ev.size] == s.rec.built[ev.data]
  }

  /** The event does not fit the output buffer of `irp`. */
  ghost predicate TooBig(s: State, ev: Slot, irp: Irp) {
    && ev.data in s.rec.built && |s.rec.built[ev.data]| == ev.size
    && IsGet(s, irp) && s.io.reqs[irp].outlen < ev.size
  }

  ghost predicate CopyInv(s: State) {
    && (forall t :: t in s.pcs && Copied(s.pcs[t]) ==> CopyOk(s, Dealt(s.pcs[t]), s.pcs[t].irp))
    && (forall t :: t in s.pcs && Refusing(s.pcs[t]) ==> TooBig(s, Dealt(s.pcs[t]), s.pcs[t].irp))
  }

  /** How a get-event IRP can end. */
  ghost predicate Outcome(s: State, i: Irp)
    requires i in s.io.completed
  {
    var d := s.io.completed[i];
    match d.status
    case Success => i in s.rec.served && CopyOk(s, Slot(s.rec.served[i], d.info), i)
    case BufferTooSmall => IsGet(s, i) && s.io.reqs[i].outlen < d.info <= LARGEST_EVENT
    case Cancelled => d.info == 0
    case Unsuccessful => d.info == 0 && i in s.rec.rejectedBy
    case InvalidRequest => false
  }

  ghost predicate OutcomeInv(s: State) {
    forall i :: i in s.io.completed && IsGet(s, i) ==> Outcome(s, i)
  }

  /** Thread `t` is about to complete `i` with event `b`. */
  ghost predicate Finishing(s: State, b: Buf, i: Irp) {
    && i in s.at.irp && s.at.irp[i].HeldBy? && s.at.irp[i].holder.Main?
    && var t := s.at.irp[i].holder.t;
    && t in s.pcs && s.pcs[t].Finish? && s.pcs[t].fits && s.pcs[t].gone.data == b && s.pcs[t].irp == i
  }

  /** Event `b` reached IRP `i`: the IRP is completed with it, or a thread is about to do so. */
  ghost predicate Received(s: State, b: Buf, i: Irp) {
    || (i in s.io.completed && s.io.completed[i].status == Success && i in s.rec.served && s.rec.served[i] == b)
    || Finishing(s, b, i)
  }

  ghost predicate RefusedBy(s: State, b: Buf, i: Irp) {
    b in s.rec.built && IsGet(s, i) && s.io.reqs[i].outlen < |s.rec.built[b]|
  }

  predicate Delivers(pc: Pc) { pc.Finish? && pc.fits }

  ghost predicate PlacedAt(s: State, b: Buf, place: BufPlace) { b in s.at.buf && s.at.buf[b] == place }

  /** A delivered event belongs to one IRP, completed with it or about to be; a refused one was too big
      for the IRP that met it. */
  ghost predicate ReceiptInv(s: State) {
    && (forall t :: t in s.pcs && Delivers(s.pcs[t]) ==> PlacedAt(s, s.pcs[t].gone.data, Delivered(s.pcs[t].irp)))
    && (forall b :: b in s.at.buf && s.at.buf[b].Delivered? ==> Received(s, b, s.at.buf[b].target))
    && (forall b :: b in s.at.buf && s.at.buf[b].Refused? ==> RefusedBy(s, b, s.at.buf[b].reader))
    && (forall i :: i in s.rec.served ==> PlacedAt(s, s.rec.served[i], Delivered(i)))
  }

  // ---------------------------------------------------------------- copies

  /** Records only grow, and system buffers other than that of `x` stay. */
  ghost predicate Kept(s: State, s': State, x: Irp) {
    && (forall b :: b in s.rec.built ==> b in s'.rec.built && s'.rec.built[b] == s.rec.built[b])
    && (forall i :: i in s.io.reqs ==> i in s'.io.reqs && s'.io.reqs[i] == s.io.reqs[i])
    && (forall i :: i in s.io.sysbuf && i != x ==> i in s'.io.sysbuf && s'.io.sysbuf[i] == s.io.sysbuf[i])
  }

  lemma CopiesKept(s: State, s': State, t: Tid, x: Irp)
    requires CopyInv(s) && Moves(s, s', t) && Kept(s, s', x)
    requires forall u :: u in s.pcs && u != t && MainIrp(s.pcs[u]).Some? ==> MainIrp(s.pcs[u]).value != x
    requires Copied(s'.pcs[t]) ==> CopyOk(s', Dealt(s'.pcs[t]), s'.pcs[t].irp)
    requires Refusing(s'.pcs[t]) ==> TooBig(s', Dealt(s'.pcs[t]), s'.pcs[t].irp)
    ensures CopyInv(s')
  {
    forall u | u in s'.pcs && Copied(s'.pcs[u]) ensures CopyOk(s', Dealt(s'.pcs[u]), s'.pcs[u].irp) {
      if u != t { assert CopyOk(s, Dealt(s.pcs[u]), s.pcs[u].irp); }
    }
    forall u | u in s'.pcs && Refusing(s'.pcs[u]) ensures TooBig(s', Dealt(s'.pcs[u]), s'.pcs[u].irp) {
      if u != t { assert TooBig(s, Dealt(s.pcs[u]), s.pcs[u].irp); }
    }
    hide CopyOk, TooBig, Copied, Refusing, Dealt, MainIrp;
  }

  /** No system buffer changes. */
  lemma SameCopies(s: State, s': State, t: Tid)
    requires CopyInv(s) && Moves(s, s', t) && s'.io.sysbuf == s.io.sysbuf && s'.io.reqs == s.io.reqs
    requires forall b :: b in s.rec.built ==> b in s'.rec.built && s'.rec.built[b] == s.rec.built[b]
    requires Copied(s'.pcs[t]) ==>
               t in s.pcs && Copied(s.pcs[t]) && Dealt(s'.pcs[t]) == Dealt(s.pcs[t]) && s'.pcs[t].irp == s.pcs[t].irp
    requires Refusing(s'.pcs[t]) ==>
               || TooBig(s, Dealt(s'.pcs[t]), s'.pcs[t].irp)
               || (t in s.pcs && Refusing(s.pcs[t]) && Dealt(s'.pcs[t]) == Dealt(s.pcs[t]) && s'.pcs[t].irp == s.pcs[t].irp)
    ensures CopyInv(s')
  {
    hide Dealt, Copied, Refusing;
  }

  lemma OtherHolders(s: State, t: Tid, irp: Irp)
    requires IrpInv(s) && t in s.pcs && MainIrp(s.pcs[t]) == Some(irp)
    ensures forall u :: u in s.pcs && u != t && MainIrp(s.pcs[u]).Some? ==> MainIrp(s.pcs[u]).value != irp
    ensures irp in s.io.reqs && irp !in s.io.completed
  {
    assert IrpOf(s, Main(t)) == Some(irp);
    forall u | u in s.pcs && u != t && MainIrp(s.pcs[u]).Some? ensures MainIrp(s.pcs[u]).value != irp {
      assert IrpOf(s, Main(u)) == MainIrp(s.pcs[u]);
    }
    hide MainIrp;
  }

  /** A copy that fits: no fault, and the event's bytes at the start of the buffer. */
  lemma CopyFits(s: State, ev: Slot, irp: Irp)
    requires SlotOk(s, ev) && IsGet(s, irp) && irp !in s.io.completed
    requires irp in s.io.sysbuf && |s.io.sysbuf[irp]| == s.io.reqs[irp].outlen && ev.size <= s.io.reqs[irp].outlen
    ensures CopyFaults(s, ev, irp) == {}
    ensures var s' := CopyOut(s, ev, irp);
            && s' == s.(io := s.io.(sysbuf := s.io.sysbuf[irp := s'.io.sysbuf[irp]]))
            && irp in s'.io.sysbuf && |s'.io.sysbuf[irp]| == |s.io.sysbuf[irp]|
            && s'.io.sysbuf[irp][..ev.size] == s.pool.mem[ev.data]
  {
  }

  /** What a thread that holds an event and serves a get-event IRP can rely on. */
  lemma ReadyToCopy(s: State, t: Tid)
    requires BufInv(s) && IrpInv(s) && StageInv(s) && ContentInv(s) && RequestInv(s) && t in s.pcs
    requires s.pcs[t].HavePending? || s.pcs[t].Checking?
    ensures var ev, irp := s.pcs[t].ev, s.pcs[t].irp;
            && SlotOk(s, ev) && IsGet(s, irp) && irp !in s.io.completed
            && irp in s.io.sysbuf && |s.io.sysbuf[irp]| == s.io.reqs[irp].outlen
            && ev.data in s.rec.built && s.rec.built[ev.data] == s.pool.mem[ev.data]
    ensures forall u :: u in s.pcs && u != t && MainIrp(s.pcs[u]).Some? ==> MainIrp(s.pcs[u]).value != s.pcs[t].irp
  {
    AtStage(s, t);
    OtherHolders(s, t, s.pcs[t].irp);
    RequestFacts(s, t);
    hide BufInv, IrpInv, StageInv, HeaderAt, PcRequest;
  }

  lemma BuildKeepsCopies(s: State, t: Tid, a: BuildStep)
    requires CopyInv(s) && t in s.pcs && BuildEnabled(s, t, a)
    ensures CopyInv(DoBuild(s, t, a))
  {
    hide CopyInv, TooBig, EncodeHeader;
    SameCopies(s, DoBuild(s, t, a), t);
  }

  lemma SubmitKeepsCopies(c: Config, s: State, t: Tid, a: SubmitStep)
    requires CopyInv(s) && BufInv(s) && IrpInv(s) && StageInv(s) && ContentInv(s) && RequestInv(s)
    requires t in s.pcs && SubmitEnabled(c, s, t, a)
    ensures CopyInv(DoSubmit(c, s, t, a))
  {
    hide CopyInv, BufInv, IrpInv, StageInv, ContentInv, RequestInv, CopyFaults, CopyOut, TouchFaults, SlotOk;
    var s' := DoSubmit(c, s, t, a);
    match a
    case Decide =>
      ReadyToCopy(s, t);
      if s'.pcs[t].fits {
        CopyFits(s, s.pcs[t].ev, s.pcs[t].irp) by { SlotSize(s, s.pcs[t].ev); }
        SlotSize(s, s.pcs[t].ev);
        CopiesKept(s, s', t, s.pcs[t].irp);
      } else {
        SlotSize(s, s.pcs[t].ev);
        SameCopies(s, s', t);
      }
    case SubmitLock => AtStage(s, t); SameCopies(s, s', t);
    case _ => SameCopies(s, s', t);
  }

  lemma SlotSize(s: State, ev: Slot)
    requires SlotOk(s, ev)
    ensures ev.data in s.pool.mem && |s.pool.mem[ev.data]| == ev.size && EventLength(ev.size)
  {
  }

  lemma GetKeepsCopies(c: Config, s: State, t: Tid, a: GetStep)
    requires CopyInv(s) && BufInv(s) && IrpInv(s) && StageInv(s) && ContentInv(s) && RequestInv(s)
    requires t in s.pcs && GetEnabled(s, t, a)
    ensures CopyInv(DoGet(c, s, t, a))
  {
    hide CopyInv, BufInv, IrpInv, StageInv, ContentInv, RequestInv, CopyFaults, CopyOut, SlotOk;
    var s' := DoGet(c, s, t, a);
    if a.Check? {
      ReadyToCopy(s, t);
      SlotSize(s, s.pcs[t].ev);
      if s'.pcs[t].fits {
        CopyFits(s, s.pcs[t].ev, s.pcs[t].irp);
        CopiesKept(s, s', t, s.pcs[t].irp);
      } else {
        SameCopies(s, s', t);
      }
    } else {
      SameCopies(s, s', t);
    }
  }

  lemma FreshIrp(s: State, irp: Irp)
    requires IrpInv(s) && irp !in s.io.reqs
    ensures forall u :: u in s.pcs && MainIrp(s.pcs[u]).Some? ==> MainIrp(s.pcs[u]).value != irp
  {
    forall u | u in s.pcs && MainIrp(s.pcs[u]).Some? ensures MainIrp(s.pcs[u]).value != irp {
      assert IrpOf(s, Main(u)) == MainIrp(s.pcs[u]);
    }
  }

  lemma IrpKeepsCopies(s: State, t: Tid, a: IrpStep)
    requires CopyInv(s) && IrpInv(s) && t in s.pcs && IrpEnabled(s, t, a)
    ensures CopyInv(DoIrp(s, t, a))
  {
    hide CopyInv, IrpInv, TooBig;
    var s' := DoIrp(s, t, a);
    match a
    case Arrive(irp, _, _) => FreshIrp(s, irp); CopiesKept(s, s', t, irp);
    case _ => SameCopies(s, s', t);
  }

  lemma UnloadKeepsCopies(s: State, t: Tid, a: UnloadStep)
    requires CopyInv(s) && t in s.pcs && UnloadEnabled(s, t, a)
    ensures CopyInv(DoUnload(s, t, a))
  {
    hide CopyInv, TooBig, NoneRunning;
    SameCopies(s, DoUnload(s, t, a), t);
  }

  // ---------------------------------------------------------------- outcomes

  lemma OutcomesKept(s: State, s': State, x: Irp)
    requires OutcomeInv(s) && Kept(s, s', x) && x !in s.io.completed
    requires s'.io.completed == s.io.completed && s'.rec.served == s.rec.served
    requires forall i :: i in s.io.completed ==> i in s.io.reqs
    requires forall i :: i in s.rec.rejectedBy ==> i in s'.rec.rejectedBy
    ensures OutcomeInv(s')
  {
    forall i | i in s'.io.completed && IsGet(s', i) ensures Outcome(s', i) {
      assert Outcome(s, i);
    }
  }

  lemma SameOutcomes(s: State, s': State)
    requires OutcomeInv(s) && s'.io == s.io && s'.rec.served == s.rec.served
    requires forall b :: b in s.rec.built ==> b in s'.rec.built && s'.rec.built[b] == s.rec.built[b]
    requires forall i :: i in s.rec.rejectedBy ==> i in s'.rec.rejectedBy
    ensures OutcomeInv(s')
  {
    forall i | i in s'.io.completed && IsGet(s', i) ensures Outcome(s', i) {
      assert Outcome(s, i);
    }
  }

  lemma NewOutcome(s: State, s': State, x: Irp, d: Completion)
    requires OutcomeInv(s) && s'.io == s.io.(completed := s.io.completed[x := d]) && x !in s.io.completed
    requires s'.rec.built == s.rec.built && s'.rec.rejectedBy == s.rec.rejectedBy
    requires forall i :: i in s.rec.served && i != x ==> i in s'.rec.served && s'.rec.served[i] == s.rec.served[i]
    requires IsGet(s', x) ==> Outcome(s', x)
    ensures OutcomeInv(s')
  {
    forall i | i in s'.io.completed && IsGet(s', i) ensures Outcome(s', i) {
      if i != x { assert Outcome(s, i); }
    }
  }

  lemma CompletedKnown(s: State)
    requires IrpInv(s)
    ensures forall i :: i in s.io.completed ==> i in s.io.reqs
  {
    hide IrpOf;
  }

  lemma BuildKeepsOutcomes(s: State, t: Tid, a: BuildStep)
    requires OutcomeInv(s) && t in s.pcs && BuildEnabled(s, t, a)
    ensures OutcomeInv(DoBuild(s, t, a))
  {
    hide OutcomeInv, EncodeHeader;
    SameOutcomes(s, DoBuild(s, t, a));
  }

  lemma SubmitKeepsOutcomes(c: Config, s: State, t: Tid, a: SubmitStep)
    requires OutcomeInv(s) && BufInv(s) && IrpInv(s) && StageInv(s) && ContentInv(s) && RequestInv(s)
    requires t in s.pcs && SubmitEnabled(c, s, t, a)
    ensures OutcomeInv(DoSubmit(c, s, t, a))
  {
    hide OutcomeInv, BufInv, IrpInv, StageInv, ContentInv, RequestInv, CopyFaults, CopyOut, TouchFaults, SlotOk, MainIrp;
    var s' := DoSubmit(c, s, t, a);
    if a.Decide? && s'.pcs[t].fits {
      ReadyToCopy(s, t);
      CompletedKnown(s);
      CopyFits(s, s.pcs[t].ev, s.pcs[t].irp) by { SlotSize(s, s.pcs[t].ev); }
      OutcomesKept(s, s', s.pcs[t].irp);
    } else {
      if a.SubmitLock? { AtStage(s, t); }
      SameOutcomes(s, s');
    }
  }

  lemma GetKeepsOutcomes(c: Config, s: State, t: Tid, a: GetStep)
    requires OutcomeInv(s) && BufInv(s) && IrpInv(s) && StageInv(s) && ContentInv(s) && RequestInv(s)
    requires t in s.pcs && GetEnabled(s, t, a)
    ensures OutcomeInv(DoGet(c, s, t, a))
  {
    hide OutcomeInv, BufInv, IrpInv, StageInv, ContentInv, RequestInv, CopyFaults, CopyOut, SlotOk, MainIrp;
    var s' := DoGet(c, s, t, a);
    if a.Check? && s'.pcs[t].fits {
      ReadyToCopy(s, t);
      CompletedKnown(s);
      CopyFits(s, s.pcs[t].ev, s.pcs[t].irp) by { SlotSize(s, s.pcs[t].ev); }
      OutcomesKept(s, s', s.pcs[t].irp);
    } else {
      SameOutcomes(s, s');
    }
  }

  /** What a finishing thread knows of its IRP. */
  lemma ReadyToFinish(s: State, t: Tid)
    requires CopyInv(s) && IrpInv(s) && ContentInv(s) && RequestInv(s) && t in s.pcs && s.pcs[t].Finish?
    ensures var Finish(ev, irp, fits) := s.pcs[t];
            && IsGet(s, irp) && irp !in s.io.completed
            && (fits ==> CopyOk(s, ev, irp))
            && (!fits ==> s.io.reqs[irp].outlen < ev.size <= LARGEST_EVENT)
  {
    RequestFacts(s, t);
    OtherHolders(s, t, s.pcs[t].irp);
    assert Copied(s.pcs[t]) || Refusing(s.pcs[t]);
    hide IrpInv, HeaderAt, PcRequest;
  }

  lemma ExtraUncompleted(s: State, t: Tid)
    requires IrpInv(s) && t in s.pcs && ExtraIrp(s.pcs[t]).Some?
    ensures ExtraIrp(s.pcs[t]).value !in s.io.completed
  {
    assert IrpOf(s, Extra(t)) == ExtraIrp(s.pcs[t]);
    hide ExtraIrp;
  }

  lemma IrpKeepsOutcomes(s: State, t: Tid, a: IrpStep)
    requires OutcomeInv(s) && CopyInv(s) && IrpInv(s) && ContentInv(s) && RequestInv(s)
    requires t in s.pcs && IrpEnabled(s, t, a)
    ensures OutcomeInv(DoIrp(s, t, a))
  {
    hide OutcomeInv, CopyInv, IrpInv, ContentInv, RequestInv;
    var s' := DoIrp(s, t, a);
    match a
    case Arrive(irp, _, _) => CompletedKnown(s); OutcomesKept(s, s', irp);
    case SettleFree => SameOutcomes(s, s');
    case DoCountRefusal => SameOutcomes(s, s');
    case DoFinish => ReadyToFinish(s, t); NewOutcome(s, s', s.pcs[t].irp, s'.io.completed[s.pcs[t].irp]);
    case DoReply =>
      RequestFacts(s, t);
      OtherHolders(s, t, s.pcs[t].irp);
      NewOutcome(s, s', s.pcs[t].irp, Completion(s.pcs[t].status, 0));
    case DoCleanupSwap => SameOutcomes(s, s');
    case DoCleanupCancel => ExtraUncompleted(s, t); NewOutcome(s, s', s.pcs[t].taken, Completion(Cancelled, 0));
  }

  lemma UnloadKeepsOutcomes(s: State, t: Tid, a: UnloadStep)
    requires OutcomeInv(s) && IrpInv(s) && t in s.pcs && UnloadEnabled(s, t, a)
    ensures OutcomeInv(DoUnload(s, t, a))
  {
    hide OutcomeInv, IrpInv, NoneRunning;
    var s' := DoUnload(s, t, a);
    if a.DoUnloadCancel? {
      OtherHolders(s, t, s.pcs[t].irp);
      NewOutcome(s, s', s.pcs[t].irp, Completion(Cancelled, 0));
    } else {
      SameOutcomes(s, s');
    }
  }

  // ---------------------------------------------------------------- receipts

  /** Nothing is delivered; records grow; IRPs of other threads stay theirs. */
  ghost predicate Undelivered(s: State, s': State, t: Tid) {
    && Moves(s, s', t) && (t in s.pcs ==> !Delivers(s.pcs[t])) && !Delivers(s'.pcs[t])
    && s'.rec.served == s.rec.served
    && (forall b :: b in s.rec.built ==> b in s'.rec.built && s'.rec.built[b] == s.rec.built[b])
    && (forall i :: i in s.io.reqs ==> i in s'.io.reqs && s'.io.reqs[i] == s.io.reqs[i])
    && (forall i :: i in s.io.completed ==> i in s'.io.completed && s'.io.completed[i] == s.io.completed[i])
    && (forall i :: i in s.at.irp && s.at.irp[i].HeldBy? && s.at.irp[i].holder.Main? && s.at.irp[i].holder.t != t ==>
          i in s'.at.irp && s'.at.irp[i] == s.at.irp[i])
  }

  lemma ReceivedKept(s: State, s': State, t: Tid)
    requires Undelivered(s, s', t)
    ensures forall b, i :: Received(s, b, i) ==> Received(s', b, i)
    ensures forall b, i :: RefusedBy(s, b, i) ==> RefusedBy(s', b, i)
  {
    forall b, i | Received(s, b, i) ensures Received(s', b, i) {
      if Finishing(s, b, i) { assert s.at.irp[i].holder.t != t; }
    }
  }

  lemma ReceiptsKept(s: State, s': State, t: Tid)
    requires ReceiptInv(s) && Undelivered(s, s', t) && s'.at.buf == s.at.buf
    ensures ReceiptInv(s')
  {
    ReceivedKept(s, s', t);
    hide Received, RefusedBy, Delivers;
  }

  /** One event moves to a place that is neither delivered nor refused. */
  lemma ReceiptMoves(s: State, s': State, t: Tid, b: Buf, place: BufPlace)
    requires ReceiptInv(s) && Undelivered(s, s', t) && s'.at.buf == s.at.buf[b := place]
    requires b in s.at.buf ==> !s.at.buf[b].Delivered?
    requires !place.Delivered? && !place.Refused?
    ensures ReceiptInv(s')
  {
    ReceivedKept(s, s', t);
    hide Received, RefusedBy, Delivers;
  }

  lemma ReceiptRefused(s: State, s': State, t: Tid, b: Buf, i: Irp)
    requires ReceiptInv(s) && Undelivered(s, s', t) && s'.at.buf == s.at.buf[b := Refused(i)]
    requires b in s.at.buf ==> !s.at.buf[b].Delivered?
    requires RefusedBy(s, b, i)
    ensures ReceiptInv(s')
  {
    ReceivedKept(s, s', t);
    hide Received, RefusedBy, Delivers;
  }

  lemma ReceiptPrepared(s: State, s': State, t: Tid, b: Buf, i: Irp)
    requires ReceiptInv(s) && Moves(s, s', t) && t in s.pcs && !Delivers(s.pcs[t])
    requires Delivers(s'.pcs[t]) && s'.pcs[t].gone.data == b && s'.pcs[t].irp == i
    requires i in s.at.irp && s.at.irp[i] == HeldBy(Main(t))
    requires b in s.at.buf && !s.at.buf[b].Delivered?
    requires s'.at.buf == s.at.buf[b := Delivered(i)] && s'.at.irp == s.at.irp && s'.io == s.io && s'.rec == s.rec
    ensures ReceiptInv(s')
  {
    assert forall x, j :: RefusedBy(s, x, j) ==> RefusedBy(s', x, j);
    forall x, j | Received(s, x, j) ensures Received(s', x, j) {
      if Finishing(s, x, j) { assert s.at.irp[j].holder.t != t; }
    }
    assert Received(s', b, i);
    hide Received, RefusedBy, Finishing;
  }

  lemma ReceiptGiven(s: State, s': State, t: Tid)
    requires ReceiptInv(s) && Moves(s, s', t) && t in s.pcs && Delivers(s.pcs[t]) && !Delivers(s'.pcs[t])
    requires var i := s.pcs[t].irp;
             && i in s.at.irp && s.at.irp[i] == HeldBy(Main(t)) && i !in s.io.completed
             && s'.at == s.at.(irp := s.at.irp[i := Done])
             && s'.io == s.io.(completed := s.io.completed[i := Completion(Success, s.pcs[t].gone.size)])
             && s'.rec == s.rec.(served := s.rec.served[i := s.pcs[t].gone.data], received := s.rec.received + [s.pcs[t].gone.data])
    ensures ReceiptInv(s')
  {
    var i, g := s.pcs[t].irp, s.pcs[t].gone.data;
    assert PlacedAt(s, g, Delivered(i));
    assert forall x, j :: RefusedBy(s, x, j) ==> RefusedBy(s', x, j);
    forall x, j | Received(s, x, j) ensures Received(s', x, j) {
      if j == i { assert Finishing(s, x, i) && x == g; }
      else if Finishing(s, x, j) { assert s.at.irp[j].holder.t != t; }
    }
    hide Received, RefusedBy, Finishing;
  }

  lemma HeldUndelivered(s: State, t: Tid)
    requires BufInv(s) && t in s.pcs && BufOf(s.pcs[t]).Some?
    ensures var b := BufOf(s.pcs[t]).value.data; b in s.at.buf && !s.at.buf[b].Delivered?
  {
    OwnBlock(s, t);
    hide BufInv, SlotOk;
  }

  lemma OwnIrp(s: State, t: Tid)
    requires IrpInv(s) && t in s.pcs && MainIrp(s.pcs[t]).Some?
    ensures var i := MainIrp(s.pcs[t]).value; i in s.at.irp && s.at.irp[i] == HeldBy(Main(t)) && i !in s.io.completed
  {
    assert IrpOf(s, Main(t)) == MainIrp(s.pcs[t]);
    hide MainIrp;
  }

  /** The parked IRP belongs to no thread. */
  lemma ParkedPlace(s: State)
    requires IrpInv(s) && s.sh.pending.Some?
    ensures s.sh.pending.value in s.at.irp && s.at.irp[s.sh.pending.value] == HeldBy(PendingSlot)
  {
    assert IrpOf(s, PendingSlot) == s.sh.pending;
    hide MainIrp;
  }

  lemma BuildKeepsReceipts(s: State, t: Tid, a: BuildStep)
    requires ReceiptInv(s) && BufInv(s) && t in s.pcs && BuildEnabled(s, t, a)
    ensures ReceiptInv(DoBuild(s, t, a))
  {
    hide ReceiptInv, BufInv, EncodeHeader;
    NextIsNew(s);
    var s' := DoBuild(s, t, a);
    match a
    case AllocFail => ReceiptMoves(s, s', t, s.pool.next, OutOfMemory);
    case AllocOk(kind) => ReceiptMoves(s, s', t, s.pool.next, Owned(ByThread(t)));
    case _ => ReceiptsKept(s, s', t);
  }

  lemma SubmitKeepsReceipts(c: Config, s: State, t: Tid, a: SubmitStep)
    requires ReceiptInv(s) && BufInv(s) && IrpInv(s) && StageInv(s) && t in s.pcs && SubmitEnabled(c, s, t, a)
    ensures ReceiptInv(DoSubmit(c, s, t, a))
  {
    hide ReceiptInv, BufInv, IrpInv, StageInv, CopyFaults, TouchFaults, SlotOk;
    var s' := DoSubmit(c, s, t, a);
    match a
    case SubmitLock => AtStage(s, t); ReceiptsKept(s, s', t);
    case DoSwapPending => if s.sh.pending.Some? { ParkedPlace(s); } ReceiptsKept(s, s', t);
    case Evict => HeadBlock(s); ReceiptMoves(s, s', t, s.sh.queue[0].data, Evicted);
    case Enqueue =>
      HeldUndelivered(s, t);
      ReceiptMoves(s, s', t, s.pcs[t].ev.data, Owned(ByRing(s.at.dequeued + |s.sh.queue|)));
    case _ => ReceiptsKept(s, s', t);
  }

  lemma GetKeepsReceipts(c: Config, s: State, t: Tid, a: GetStep)
    requires ReceiptInv(s) && BufInv(s) && IrpInv(s) && t in s.pcs && GetEnabled(s, t, a)
    ensures ReceiptInv(DoGet(c, s, t, a))
  {
    hide ReceiptInv, BufInv, IrpInv, CopyFaults, SlotOk;
    var s' := DoGet(c, s, t, a);
    match a
    case Pop => HeadBlock(s); ReceiptMoves(s, s', t, s.sh.queue[0].data, Owned(ByThread(t)));
    case DoPark => OwnIrp(s, t); ReceiptsKept(s, s', t);
    case _ => ReceiptsKept(s, s', t);
  }

  lemma SettleKeepsReceipts(s: State, t: Tid, a: IrpStep)
    requires ReceiptInv(s) && BufInv(s) && IrpInv(s) && CopyInv(s) && t in s.pcs && IrpEnabled(s, t, a) && Settles(a)
    ensures ReceiptInv(DoIrp(s, t, a))
  {
    hide ReceiptInv, BufInv, IrpInv, CopyInv;
    var s' := DoIrp(s, t, a);
    match a
    case SettleFree =>
      HeldUndelivered(s, t);
      OwnIrp(s, t);
      if s.pcs[t].fits {
        ReceiptPrepared(s, s', t, s.pcs[t].ev.data, s.pcs[t].irp);
      } else {
        SettleRefuses(s, t);
        ReceiptRefused(s, s', t, s.pcs[t].ev.data, s.pcs[t].irp);
      }
    case DoFinish => OwnIrp(s, t); if s.pcs[t].fits { ReceiptGiven(s, s', t); } else { ReceiptsKept(s, s', t); }
    case DoCountRefusal => ReceiptsKept(s, s', t);
  }

  lemma DispatchKeepsReceipts(s: State, t: Tid, a: IrpStep)
    requires ReceiptInv(s) && BufInv(s) && IrpInv(s) && CopyInv(s) && t in s.pcs && IrpEnabled(s, t, a) && !Settles(a)
    ensures ReceiptInv(DoIrp(s, t, a))
  {
    hide ReceiptInv, BufInv, IrpInv, CopyInv;
    var s' := DoIrp(s, t, a);
    match a
    case Arrive(_, _, _) => KnownPlaced(s); ReceiptsKept(s, s', t);
    case DoReply => OwnIrp(s, t); ReceiptsKept(s, s', t);
    case DoCleanupSwap => if s.sh.pending.Some? { ParkedPlace(s); } ReceiptsKept(s, s', t);
    case DoCleanupCancel => ExtraUncompleted(s, t); ExtraPlace(s, t); ReceiptsKept(s, s', t);
  }

  lemma IrpKeepsReceipts(s: State, t: Tid, a: IrpStep)
    requires ReceiptInv(s) && BufInv(s) && IrpInv(s) && CopyInv(s) && t in s.pcs && IrpEnabled(s, t, a)
    ensures ReceiptInv(DoIrp(s, t, a))
  {
    hide *;
    if Settles(a) { SettleKeepsReceipts(s, t, a); } else { DispatchKeepsReceipts(s, t, a); }
  }

  lemma KnownPlaced(s: State)
    requires IrpInv(s)
    ensures forall i :: i in s.at.irp ==> i in s.io.reqs
  {
    hide IrpOf;
  }

  lemma ExtraPlace(s: State, t: Tid)
    requires IrpInv(s) && t in s.pcs && ExtraIrp(s.pcs[t]).Some?
    ensures var i := ExtraIrp(s.pcs[t]).value; i in s.at.irp && s.at.irp[i] == HeldBy(Extra(t))
  {
    assert IrpOf(s, Extra(t)) == ExtraIrp(s.pcs[t]);
    hide ExtraIrp;
  }

  lemma SettleRefuses(s: State, t: Tid)
    requires CopyInv(s) && t in s.pcs && s.pcs[t].Settle? && !s.pcs[t].fits
    ensures TooBig(s, s.pcs[t].ev, s.pcs[t].irp)
  {
    assert Refusing(s.pcs[t]);
  }

  lemma UnloadKeepsReceipts(s: State, t: Tid, a: UnloadStep)
    requires ReceiptInv(s) && BufInv(s) && IrpInv(s) && t in s.pcs && UnloadEnabled(s, t, a)
    ensures ReceiptInv(DoUnload(s, t, a))
  {
    hide ReceiptInv, BufInv, IrpInv, NoneRunning, SlotOk;
    var s' := DoUnload(s, t, a);
    match a
    case DoUnloadSwap => if s.sh.pending.Some? { ParkedPlace(s); } ReceiptsKept(s, s', t);
    case DoUnloadCancel => OwnIrp(s, t); ReceiptsKept(s, s', t);
    case DrainPop => HeadBlock(s); ReceiptMoves(s, s', t, s.sh.queue[0].data, Owned(ByThread(t)));
    case DoDrainFree => HeldUndelivered(s, t); ReceiptMoves(s, s', t, s.pcs[t].ev.data, Drained);
    case _ => ReceiptsKept(s, s', t);
  }
}
