/** How far each event has come on its way to the ring, and which events were promised to an IRP. */
module Fates {
  import opened Wire
  import opened Protocol
  import opened Buffers

  /** How far an event has come: 1 allocated, 2 header stamped, 3 handed to `submit_event`, 4 submitted. */
  function PcStage(pc: Pc): nat {
    if pc.StampDrop? || pc.StampTrunc? then 1 else if pc.Filling? then 2 else if pc.SwapPending? then 3 else 4
  }

  ghost function Stage(s: State, p: BufPlace): nat {
    match p
    case OutOfMemory => 0
    case Owned(ByThread(t)) => if t in s.pcs then PcStage(s.pcs[t]) else 4
    case _ => 4
  }

  ghost predicate Distinct<T>(xs: seq<T>) {
    forall i, j :: 0 <= i < j < |xs| ==> xs[i] != xs[j]
  }

  /** Headers, recorded contents and submissions are exactly those of the events that came that far. */
  ghost predicate StageInv(s: State) {
    && Distinct(s.order.submitted)
    && (forall b :: b in s.rec.headers || b in s.rec.built || b in s.order.submitted ==> b in s.at.buf)
    && (forall b :: b in s.at.buf ==>
          var n := Stage(s, s.at.buf[b]);
          && (b in s.rec.headers <==> n >= 2)
          && (b in s.rec.built <==> n >= 3)
          && (b in s.order.submitted <==> n >= 4))
  }

  /** The thread is bound to hand its event to an IRP, or has popped it for one. */
  predicate Promised(pc: Pc) {
    pc.Popped? || pc.Checking? || (pc.Decided? && pc.fits) || (pc.Settle? && pc.fits)
  }

  ghost predicate PromiseInv(s: State) {
    && (forall t :: t in s.pcs && Promised(s.pcs[t]) ==> s.pcs[t].ev.data in s.order.committed)
    && (forall b :: b in s.at.buf && s.at.buf[b].Delivered? ==> b in s.order.committed)
  }

  // ---------------------------------------------------------------- stages

  ghost predicate SameRecords(s: State, s': State) {
    s'.rec.headers == s.rec.headers && s'.rec.built == s.rec.built && s'.order.submitted == s.order.submitted
  }

  lemma SameStage(s: State, s': State, t: Tid)
    requires StageInv(s) && Moves(s, s', t) && t in s.pcs && s'.at.buf == s.at.buf && SameRecords(s, s')
    requires PcStage(s'.pcs[t]) == PcStage(s.pcs[t])
    ensures StageInv(s')
  {
    hide PcStage, Distinct;
  }

  lemma NothingHeld(s: State, t: Tid)
    requires BufInv(s) && BlockOf(s, ByThread(t)) == None
    ensures forall b :: b in s.at.buf ==> s.at.buf[b] != Owned(ByThread(t))
  {
    hide BlockOf;
  }

  lemma NewThread(s: State, s': State, t: Tid)
    requires StageInv(s) && BufInv(s) && Moves(s, s', t) && t !in s.pcs && s'.at.buf == s.at.buf && SameRecords(s, s')
    ensures StageInv(s')
  {
    NothingHeld(s, t);
    hide PcStage, Distinct, BufInv;
  }

  /** A submitted event moves. */
  lemma StageMoves(s: State, s': State, t: Tid, b: Buf, place: BufPlace)
    requires StageInv(s) && Moves(s, s', t) && t in s.pcs && b in s.at.buf
    requires s'.at.buf == s.at.buf[b := place] && SameRecords(s, s')
    requires PcStage(s.pcs[t]) == 4 && PcStage(s'.pcs[t]) == 4
    requires Stage(s, s.at.buf[b]) == 4 && Stage(s', place) == 4
    ensures StageInv(s')
  {
    hide PcStage, Distinct;
  }

  /** A call of `alloc_event` adds an event. */
  lemma StageGrows(s: State, s': State, t: Tid, place: BufPlace)
    requires StageInv(s) && BufInv(s) && Moves(s, s', t) && t in s.pcs && BufOf(s.pcs[t]) == None
    requires s'.at.buf == s.at.buf[s.pool.next := place] && SameRecords(s, s')
    requires Stage(s', place) <= 1
    ensures StageInv(s')
  {
    hide PcStage, Distinct, BlockOf, BufOf;
    assert BlockOf(s, ByThread(t)) == None by { OtherBlocks(s, s, t); }
    NothingHeld(s, t);
    assert s.pool.next !in s.at.buf;
  }

  lemma HeldOnce(s: State, t: Tid, b: Buf)
    requires BufInv(s) && b in s.at.buf && s.at.buf[b] == Owned(ByThread(t))
    ensures forall x :: x in s.at.buf && s.at.buf[x] == Owned(ByThread(t)) ==> x == b
  {
    hide BlockOf;
  }

  lemma DistinctAppend<T>(xs: seq<T>, x: T)
    requires Distinct(xs) && x !in xs
    ensures Distinct(xs + [x])
  {
  }

  lemma StagesOfOthers(s: State, s': State, t: Tid, b: Buf)
    requires BufInv(s) && Moves(s, s', t) && t in s.pcs
    requires b in s.at.buf && s.at.buf[b] == Owned(ByThread(t)) && s'.at.buf == s.at.buf
    ensures forall x :: x in s.at.buf && x != b ==> Stage(s', s.at.buf[x]) == Stage(s, s.at.buf[x])
    ensures Stage(s, s.at.buf[b]) == PcStage(s.pcs[t]) && Stage(s', s.at.buf[b]) == PcStage(s'.pcs[t])
  {
    HeldOnce(s, t, b);
    hide PcStage, BufInv;
  }

  /** The event of thread `t` reaches its next stage, and the matching record. */
  lemma StageAdvances(s: State, s': State, t: Tid, b: Buf)
    requires StageInv(s) && BufInv(s) && Moves(s, s', t) && t in s.pcs
    requires b in s.at.buf && s.at.buf[b] == Owned(ByThread(t)) && s'.at.buf == s.at.buf
    requires var n := PcStage(s.pcs[t]);
             && n < 4 && PcStage(s'.pcs[t]) == n + 1
             && (forall x :: x in s'.rec.headers <==> x in s.rec.headers || (n == 1 && x == b))
             && (forall x :: x in s'.rec.built <==> x in s.rec.built || (n == 2 && x == b))
             && s'.order.submitted == if n == 3 then s.order.submitted + [b] else s.order.submitted
    ensures StageInv(s')
  {
    hide PcStage, BufInv, Stage, Distinct, Moves;
    StagesOfOthers(s, s', t, b);
    if PcStage(s.pcs[t]) == 3 { DistinctAppend(s.order.submitted, b); }
  }

  lemma OwnBlock(s: State, t: Tid)
    requires BufInv(s) && t in s.pcs && BufOf(s.pcs[t]).Some?
    ensures var ev := BufOf(s.pcs[t]).value;
            SlotOk(s, ev) && ev.data in s.at.buf && s.at.buf[ev.data] == Owned(ByThread(t))
  {
    assert BlockOf(s, ByThread(t)) == BufOf(s.pcs[t]);
  }

  lemma HeadBlock(s: State)
    requires BufInv(s) && s.sh.queue != []
    ensures var ev := s.sh.queue[0];
            SlotOk(s, ev) && ev.data in s.at.buf && s.at.buf[ev.data] == Owned(ByRing(s.at.dequeued))
  {
    assert BlockOf(s, ByRing(s.at.dequeued)) == Some(s.sh.queue[0]);
  }

  lemma BuildKeepsStages(s: State, t: Tid, a: BuildStep)
    requires StageInv(s) && BufInv(s) && t in s.pcs && BuildEnabled(s, t, a)
    ensures StageInv(DoBuild(s, t, a))
  {
    hide StageInv, BufInv, EncodeHeader, SlotOk;
    var s' := DoBuild(s, t, a);
    match a
    case AllocFail => StageGrows(s, s', t, OutOfMemory);
    case AllocOk(kind) => StageGrows(s, s', t, Owned(ByThread(t)));
    case DoStampTrunc(_) => OwnBlock(s, t); StageAdvances(s, s', t, s.pcs[t].ev.data);
    case _ => SameStage(s, s', t);
  }

  lemma SubmitKeepsStages(c: Config, s: State, t: Tid, a: SubmitStep)
    requires StageInv(s) && BufInv(s) && t in s.pcs && SubmitEnabled(c, s, t, a)
    ensures StageInv(DoSubmit(c, s, t, a))
  {
    hide StageInv, BufInv, CopyFaults, TouchFaults, SlotOk;
    var s' := DoSubmit(c, s, t, a);
    match a
    case SubmitLock => OwnBlock(s, t); StageAdvances(s, s', t, s.pcs[t].ev.data);
    case DoSwapPending => OwnBlock(s, t); StageAdvances(s, s', t, s.pcs[t].ev.data);
    case Evict => HeadBlock(s); StageMoves(s, s', t, s.sh.queue[0].data, Evicted);
    case Enqueue =>
      OwnBlock(s, t);
      StageMoves(s, s', t, s.pcs[t].ev.data, Owned(ByRing(s.at.dequeued + |s.sh.queue|)));
    case _ => SameStage(s, s', t);
  }

  lemma GetKeepsStages(c: Config, s: State, t: Tid, a: GetStep)
    requires StageInv(s) && BufInv(s) && t in s.pcs && GetEnabled(s, t, a)
    ensures StageInv(DoGet(c, s, t, a))
  {
    hide StageInv, BufInv, CopyFaults, SlotOk;
    var s' := DoGet(c, s, t, a);
    if a.Pop? {
      HeadBlock(s);
      StageMoves(s, s', t, s.sh.queue[0].data, Owned(ByThread(t)));
    } else {
      SameStage(s, s', t);
    }
  }

  lemma IrpKeepsStages(s: State, t: Tid, a: IrpStep)
    requires StageInv(s) && BufInv(s) && t in s.pcs && IrpEnabled(s, t, a)
    ensures StageInv(DoIrp(s, t, a))
  {
    hide StageInv, BufInv, SlotOk;
    var s' := DoIrp(s, t, a);
    if a.SettleFree? {
      OwnBlock(s, t);
      StageMoves(s, s', t, s.pcs[t].ev.data, if s.pcs[t].fits then Delivered(s.pcs[t].irp) else Refused(s.pcs[t].irp));
    } else {
      SameStage(s, s', t);
    }
  }

  lemma UnloadKeepsStages(s: State, t: Tid, a: UnloadStep)
    requires StageInv(s) && BufInv(s) && t in s.pcs && UnloadEnabled(s, t, a)
    ensures StageInv(DoUnload(s, t, a))
  {
    hide StageInv, BufInv, NoneRunning, SlotOk;
    var s' := DoUnload(s, t, a);
    match a
    case DrainPop => HeadBlock(s); StageMoves(s, s', t, s.sh.queue[0].data, Owned(ByThread(t)));
    case DoDrainFree => OwnBlock(s, t); StageMoves(s, s', t, s.pcs[t].ev.data, Drained);
    case _ => SameStage(s, s', t);
  }

  // ---------------------------------------------------------------- promises

  lemma KeepsPromises(s: State, s': State, t: Tid)
    requires PromiseInv(s) && Moves(s, s', t)
    requires forall b :: b in s.order.committed ==> b in s'.order.committed
    requires Promised(s'.pcs[t]) ==> s'.pcs[t].ev.data in s'.order.committed
    requires forall b :: b in s'.at.buf && s'.at.buf[b].Delivered? ==> b in s'.order.committed
    ensures PromiseInv(s')
  {
    hide Promised;
  }

  lemma BuildKeepsPromises(s: State, t: Tid, a: BuildStep)
    requires PromiseInv(s) && t in s.pcs && BuildEnabled(s, t, a)
    ensures PromiseInv(DoBuild(s, t, a))
  {
    hide EncodeHeader;
    var s' := DoBuild(s, t, a);
    KeepsPromises(s, s', t);
  }

  lemma SubmitKeepsPromises(c: Config, s: State, t: Tid, a: SubmitStep)
    requires PromiseInv(s) && t in s.pcs && SubmitEnabled(c, s, t, a)
    ensures PromiseInv(DoSubmit(c, s, t, a))
  {
    hide CopyFaults, TouchFaults;
    var s' := DoSubmit(c, s, t, a);
    assert Promised(s.pcs[t]) ==> s.pcs[t].ev.data in s.order.committed;
    KeepsPromises(s, s', t);
  }

  lemma GetKeepsPromises(c: Config, s: State, t: Tid, a: GetStep)
    requires PromiseInv(s) && t in s.pcs && GetEnabled(s, t, a)
    ensures PromiseInv(DoGet(c, s, t, a))
  {
    hide CopyFaults;
    var s' := DoGet(c, s, t, a);
    assert Promised(s.pcs[t]) ==> s.pcs[t].ev.data in s.order.committed;
    KeepsPromises(s, s', t);
  }

  lemma IrpKeepsPromises(s: State, t: Tid, a: IrpStep)
    requires PromiseInv(s) && t in s.pcs && IrpEnabled(s, t, a)
    ensures PromiseInv(DoIrp(s, t, a))
  {
    var s' := DoIrp(s, t, a);
    assert Promised(s.pcs[t]) ==> s.pcs[t].ev.data in s.order.committed;
    KeepsPromises(s, s', t);
  }

  lemma UnloadKeepsPromises(s: State, t: Tid, a: UnloadStep)
    requires PromiseInv(s) && t in s.pcs && UnloadEnabled(s, t, a)
    ensures PromiseInv(DoUnload(s, t, a))
  {
    hide NoneRunning;
    var s' := DoUnload(s, t, a);
    KeepsPromises(s, s', t);
  }
}

/** Where the events are that were handed over under the lock. */
module Commitments {
  import opened Wire
  import opened Protocol
  import opened Buffers
  import opened Fates

  /** The thread has an event that it popped for an IRP or decided to copy to one. */
  predicate MayHold(pc: Pc) { pc.Popped? || pc.Checking? || (pc.Decided? && pc.fits) || pc.Settle? }

  ghost predicate CommitOk(s: State, b: Buf) {
    && b in s.at.buf
    && match s.at.buf[b] {
         case Delivered(_) => true
         case Refused(_) => true
         case Owned(ByThread(t)) => t in s.pcs && MayHold(s.pcs[t]) && s.pcs[t].ev.data == b
         case _ => false
       }
  }

  /** A committed event is delivered, refused, or held by the one thread that popped or decided it. */
  ghost predicate CommitInv(s: State) {
    forall b :: b in s.order.committed ==> CommitOk(s, b)
  }

  /** Thread `t` keeps a committed event it holds, unless it is `x`. */
  ghost predicate GoesOnHolding(s: State, s': State, t: Tid, x: Option<Buf>) {
    t in s.pcs && MayHold(s.pcs[t]) && x != Some(s.pcs[t].ev.data) ==>
      t in s'.pcs && MayHold(s'.pcs[t]) && s'.pcs[t].ev == s.pcs[t].ev
  }

  lemma CommitsKept(s: State, s': State, t: Tid)
    requires CommitInv(s) && Moves(s, s', t) && s'.order.committed == s.order.committed && GoesOnHolding(s, s', t, None)
    requires forall b :: b in s.order.committed ==> b in s'.at.buf && s'.at.buf[b] == s.at.buf[b]
    ensures CommitInv(s')
  {
    forall b | b in s'.order.committed ensures CommitOk(s', b) { assert CommitOk(s, b); }
  }

  lemma CommitMoves(s: State, s': State, t: Tid, x: Buf)
    requires CommitInv(s) && Moves(s, s', t) && GoesOnHolding(s, s', t, Some(x)) && CommitOk(s', x)
    requires s'.order.committed == s.order.committed || s'.order.committed == s.order.committed + [x]
    requires forall b :: b in s.order.committed && b != x ==> b in s'.at.buf && s'.at.buf[b] == s.at.buf[b]
    ensures CommitInv(s')
  {
    forall b | b in s'.order.committed ensures CommitOk(s', b) {
      if b != x { assert CommitOk(s, b); }
    }
  }

  lemma QueuedNotCommitted(s: State)
    requires CommitInv(s) && BufInv(s) && s.sh.queue != []
    ensures s.sh.queue[0].data !in s.order.committed
  {
    HeadBlock(s);
    assert s.sh.queue[0].data in s.order.committed ==> CommitOk(s, s.sh.queue[0].data);
    hide BufInv, CommitInv;
  }

  lemma HeldNotCommitted(s: State, t: Tid)
    requires CommitInv(s) && BufInv(s) && t in s.pcs && BufOf(s.pcs[t]).Some? && !MayHold(s.pcs[t])
    ensures BufOf(s.pcs[t]).value.data !in s.order.committed
  {
    OwnBlock(s, t);
    assert BufOf(s.pcs[t]).value.data in s.order.committed ==> CommitOk(s, BufOf(s.pcs[t]).value.data);
    hide BufInv, CommitInv, MayHold;
  }

  lemma NextNotCommitted(s: State)
    requires CommitInv(s) && BufInv(s)
    ensures s.pool.next !in s.order.committed
  {
    NextIsNew(s);
    assert s.pool.next in s.order.committed ==> CommitOk(s, s.pool.next);
    hide BufInv, CommitInv;
  }

  lemma AllPlaced(s: State)
    requires CommitInv(s)
    ensures forall b :: b in s.order.committed ==> b in s.at.buf
  {
    assert forall b :: b in s.order.committed ==> CommitOk(s, b);
    hide CommitInv;
  }

  lemma BuildKeepsCommits(s: State, t: Tid, a: BuildStep)
    requires CommitInv(s) && BufInv(s) && t in s.pcs && BuildEnabled(s, t, a)
    ensures CommitInv(DoBuild(s, t, a))
  {
    hide CommitInv, BufInv, EncodeHeader;
    NextNotCommitted(s);
    AllPlaced(s);
    CommitsKept(s, DoBuild(s, t, a), t);
  }

  lemma SubmitKeepsCommits(c: Config, s: State, t: Tid, a: SubmitStep)
    requires CommitInv(s) && BufInv(s) && t in s.pcs && SubmitEnabled(c, s, t, a)
    ensures CommitInv(DoSubmit(c, s, t, a))
  {
    hide CommitInv, BufInv, CopyFaults, TouchFaults;
    AllPlaced(s);
    var s' := DoSubmit(c, s, t, a);
    if a.Evict? { QueuedNotCommitted(s); } else if a.Enqueue? { HeldNotCommitted(s, t); }
    if a.Decide? && s'.pcs[t].fits {
      OwnBlock(s, t);
      CommitMoves(s, s', t, s.pcs[t].ev.data);
    } else {
      CommitsKept(s, s', t);
    }
  }

  lemma GetKeepsCommits(c: Config, s: State, t: Tid, a: GetStep)
    requires CommitInv(s) && BufInv(s) && t in s.pcs && GetEnabled(s, t, a)
    ensures CommitInv(DoGet(c, s, t, a))
  {
    hide CommitInv, BufInv, CopyFaults;
    AllPlaced(s);
    var s' := DoGet(c, s, t, a);
    if a.Pop? { CommitMoves(s, s', t, s.sh.queue[0].data); } else { CommitsKept(s, s', t); }
  }

  lemma IrpKeepsCommits(s: State, t: Tid, a: IrpStep)
    requires CommitInv(s) && BufInv(s) && t in s.pcs && IrpEnabled(s, t, a)
    ensures CommitInv(DoIrp(s, t, a))
  {
    hide CommitInv, BufInv;
    AllPlaced(s);
    var s' := DoIrp(s, t, a);
    if a.SettleFree? { CommitMoves(s, s', t, s.pcs[t].ev.data); } else { CommitsKept(s, s', t); }
  }

  lemma UnloadKeepsCommits(s: State, t: Tid, a: UnloadStep)
    requires CommitInv(s) && BufInv(s) && t in s.pcs && UnloadEnabled(s, t, a)
    ensures CommitInv(DoUnload(s, t, a))
  {
    hide CommitInv, BufInv, NoneRunning;
    AllPlaced(s);
    if a.DrainPop? { QueuedNotCommitted(s); } else if a.DoDrainFree? { HeldNotCommitted(s, t); }
    CommitsKept(s, DoUnload(s, t, a), t);
  }
}
