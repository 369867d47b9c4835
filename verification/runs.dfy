/** Wake-ups, completions and teardown over whole runs. */
module Runs {
  import opened Wire
  import opened Protocol
  import opened Buffers
  import opened Irps
  import opened Control
  import opened Fates
  import opened Stamps
  import opened Commitments
  import opened Accounting
  import opened Contents
  import opened Requests
  import opened Delivery
  import opened Roles
  import opened Invariant
  import opened Theorems

  /** Points of `submit_event` under the lock, after the swap of the pending slot. */
  predicate PastSwap(pc: Pc) { pc.HavePending? || pc.Decided? || pc.Pushing? || pc.CountEviction? || pc.Pushed? }

  /** A parked IRP means an empty ring, and a submitter past its swap leaves no IRP parked. */
  lemma ParkedMeansEmpty(c: Config, s: State)
    requires Reachable(c, s)
    ensures s.sh.pending.Some? ==> s.sh.queue == []
    ensures |s.sh.queue| <= c.capacity
    ensures forall t :: t in s.pcs && PastSwap(s.pcs[t]) ==> s.sh.pending == None
  {
    Families(c, s) by { hide *; }
    hide Reachable;
  }

  // ---------------------------------------------------------------- no lost wake-up

  /** Points before the compare-exchange that parks `pc.irp`. */
  predicate WillPark(pc: Pc) { pc.GetLock? || pc.TryPop? || pc.MarkEarly? || pc.Park? }

  /** The IRP is known and no thread is on its way to park it. */
  ghost predicate PastParking(s: State, irp: Irp) {
    irp in s.io.reqs && forall t :: t in s.pcs && WillPark(s.pcs[t]) ==> s.pcs[t].irp != irp
  }

  lemma ParkedIsPast(s: State, irp: Irp)
    requires IrpInv(s) && s.sh.pending == Some(irp)
    ensures PastParking(s, irp)
  {
    assert IrpOf(s, PendingSlot) == Some(irp);
    forall t | t in s.pcs && WillPark(s.pcs[t]) ensures s.pcs[t].irp != irp {
      assert IrpOf(s, Main(t)) == MainIrp(s.pcs[t]) == Some(s.pcs[t].irp);
    }
  }

  /** Past parking, an IRP that is not in the slot stays out of it. */
  ghost predicate StaysOut(s: State, s': State, irp: Irp) {
    PastParking(s', irp) && (s.sh.pending != Some(irp) ==> s'.sh.pending != Some(irp))
  }

  lemma MoveStaysOut(s: State, s': State, t: Tid, irp: Irp)
    requires PastParking(s, irp) && Moves(s, s', t) && (forall i :: i in s.io.reqs ==> i in s'.io.reqs)
    requires WillPark(s'.pcs[t]) ==> s'.pcs[t].irp != irp
    requires s'.sh.pending == s.sh.pending || s'.sh.pending == None || (s'.sh.pending.Some? && s'.sh.pending.value != irp)
    ensures StaysOut(s, s', irp)
  {
    hide WillPark;
  }

  lemma OwnParking(s: State, t: Tid, irp: Irp)
    requires PastParking(s, irp) && t in s.pcs
    ensures irp in s.io.reqs && (WillPark(s.pcs[t]) ==> s.pcs[t].irp != irp)
  {
  }

  lemma BuildStaysOut(s: State, t: Tid, a: BuildStep, irp: Irp)
    requires PastParking(s, irp) && t in s.pcs && BuildEnabled(s, t, a)
    ensures StaysOut(s, DoBuild(s, t, a), irp)
  {
    hide PastParking, StaysOut, EncodeHeader;
    OwnParking(s, t, irp);
    MoveStaysOut(s, DoBuild(s, t, a), t, irp);
  }

  lemma SubmitStaysOut(c: Config, s: State, t: Tid, a: SubmitStep, irp: Irp)
    requires PastParking(s, irp) && t in s.pcs && SubmitEnabled(c, s, t, a)
    ensures StaysOut(s, DoSubmit(c, s, t, a), irp)
  {
    hide PastParking, StaysOut, CopyFaults, TouchFaults;
    OwnParking(s, t, irp);
    MoveStaysOut(s, DoSubmit(c, s, t, a), t, irp);
  }

  lemma GetStaysOut(c: Config, s: State, t: Tid, a: GetStep, irp: Irp)
    requires PastParking(s, irp) && t in s.pcs && GetEnabled(s, t, a)
    ensures StaysOut(s, DoGet(c, s, t, a), irp)
  {
    hide PastParking, StaysOut, CopyFaults;
    OwnParking(s, t, irp);
    MoveStaysOut(s, DoGet(c, s, t, a), t, irp);
  }

  lemma IrpStaysOut(s: State, t: Tid, a: IrpStep, irp: Irp)
    requires PastParking(s, irp) && t in s.pcs && IrpEnabled(s, t, a)
    ensures StaysOut(s, DoIrp(s, t, a), irp)
  {
    hide PastParking, StaysOut;
    OwnParking(s, t, irp);
    MoveStaysOut(s, DoIrp(s, t, a), t, irp);
  }

  lemma UnloadStaysOut(s: State, t: Tid, a: UnloadStep, irp: Irp)
    requires PastParking(s, irp) && t in s.pcs && UnloadEnabled(s, t, a)
    ensures StaysOut(s, DoUnload(s, t, a), irp)
  {
    hide PastParking, StaysOut, NoneRunning;
    OwnParking(s, t, irp);
    MoveStaysOut(s, DoUnload(s, t, a), t, irp);
  }

  lemma StepStaysOut(c: Config, s: State, a: Step, irp: Irp)
    requires PastParking(s, irp) && Enabled(c, s, a)
    ensures StaysOut(s, Do(c, s, a), irp)
  {
    hide PastParking, StaysOut, BuildEnabled, DoBuild, SubmitEnabled, DoSubmit, GetEnabled, DoGet, IrpEnabled, DoIrp,
         UnloadEnabled, DoUnload;
    match a
    case Spawn(t) => MoveStaysOut(s, Do(c, s, a), t, irp);
    case Build(t, b) => BuildStaysOut(s, t, b, irp);
    case Submit(t, b) => SubmitStaysOut(c, s, t, b, irp);
    case Get(t, g) => GetStaysOut(c, s, t, g, irp);
    case Handle(t, h) => IrpStaysOut(s, t, h, irp);
    case Teardown(t, u) => UnloadStaysOut(s, t, u, irp);
  }

  lemma {:induction false} RunStaysOut(c: Config, states: seq<State>, steps: seq<Step>, i: nat, k: nat, irp: Irp)
    requires IsRun(c, states, steps) && i <= k <= |steps| && PastParking(states[i], irp)
    ensures StaysOut(states[i], states[k], irp)
  {
    hide PastParking, Enabled, Do, Init;
    if i < k {
      RunStaysOut(c, states, steps, i, k - 1, irp);
      StepStaysOut(c, states[k - 1], steps[k - 1], irp);
    }
  }

  // ---------------------------------------------------------------- marks come after parking

  predicate Marking(pc: Pc) { pc.ParkedIrp? || pc.MarkLate? }

  /** An IRP whose dispatcher has parked it and not yet marked it is past parking. */
  ghost predicate MarksPast(s: State) {
    forall t :: t in s.pcs && Marking(s.pcs[t]) ==> PastParking(s, s.pcs[t].parked)
  }

  /** A thread comes to the mark by parking its IRP. */
  lemma MarkOrigin(c: Config, s: State, a: Step, u: Tid)
    requires Enabled(c, s, a) && u in Do(c, s, a).pcs && Marking(Do(c, s, a).pcs[u])
    ensures var s' := Do(c, s, a);
            || (u in s.pcs && Marking(s.pcs[u]) && s.pcs[u].parked == s'.pcs[u].parked)
            || s'.sh.pending == Some(s'.pcs[u].parked)
  {
    if a.Get? {
      hide GetEnabled, DoGet;
      GetMarks(c, s, a.t, a.get, u);
    } else {
      hide Enabled, Do;
      OthersDoNotMark(c, s, a, u);
    }
  }

  lemma GetMarks(c: Config, s: State, t: Tid, a: GetStep, u: Tid)
    requires t in s.pcs && GetEnabled(s, t, a) && u in DoGet(c, s, t, a).pcs && Marking(DoGet(c, s, t, a).pcs[u])
    ensures var s' := DoGet(c, s, t, a);
            || (u in s.pcs && Marking(s.pcs[u]) && s.pcs[u].parked == s'.pcs[u].parked)
            || s'.sh.pending == Some(s'.pcs[u].parked)
  {
    hide CopyFaults;
  }

  lemma OthersDoNotMark(c: Config, s: State, a: Step, u: Tid)
    requires Enabled(c, s, a) && !a.Get? && u in Do(c, s, a).pcs && Marking(Do(c, s, a).pcs[u])
    ensures u in s.pcs && s.pcs[u] == Do(c, s, a).pcs[u]
  {
    hide Enabled, Do;
    if a.Handle? || a.Teardown? { RepliersDoNotMark(c, s, a, u); } else { ProducersDoNotMark(c, s, a, u); }
  }

  lemma ProducersDoNotMark(c: Config, s: State, a: Step, u: Tid)
    requires Enabled(c, s, a) && (a.Spawn? || a.Build? || a.Submit?) && u in Do(c, s, a).pcs && Marking(Do(c, s, a).pcs[u])
    ensures u in s.pcs && s.pcs[u] == Do(c, s, a).pcs[u]
  {
    hide CopyFaults, TouchFaults, EncodeHeader;
    match a
    case Spawn(_) =>
    case Build(_, _) =>
    case Submit(_, _) =>
  }

  lemma RepliersDoNotMark(c: Config, s: State, a: Step, u: Tid)
    requires Enabled(c, s, a) && (a.Handle? || a.Teardown?) && u in Do(c, s, a).pcs && Marking(Do(c, s, a).pcs[u])
    ensures u in s.pcs && s.pcs[u] == Do(c, s, a).pcs[u]
  {
    hide NoneRunning;
    match a
    case Handle(_, _) =>
    case Teardown(_, _) =>
  }

  lemma StepKeepsMarks(c: Config, s: State, a: Step)
    requires MarksPast(s) && Enabled(c, s, a) && IrpInv(Do(c, s, a))
    ensures MarksPast(Do(c, s, a))
  {
    hide IrpInv, PastParking, Enabled, Do;
    var s' := Do(c, s, a);
    forall t | t in s'.pcs && Marking(s'.pcs[t]) ensures PastParking(s', s'.pcs[t].parked) {
      MarkOrigin(c, s, a, t);
      if s'.sh.pending == Some(s'.pcs[t].parked) {
        ParkedIsPast(s', s'.pcs[t].parked);
      } else {
        StepStaysOut(c, s, a, s'.pcs[t].parked);
      }
    }
  }

  lemma {:induction false} RunKeepsMarks(c: Config, states: seq<State>, steps: seq<Step>, i: nat)
    requires IsRun(c, states, steps) && i <= |steps|
    ensures MarksPast(states[i])
  {
    hide Enabled, Do, Inv, PastParking;
    if i > 0 {
      RunKeepsMarks(c, states, steps, i - 1);
      RunHolds(c, states, steps, i);
      IrpPart(c, states[i]);
      StepKeepsMarks(c, states[i - 1], steps[i - 1]);
    }
  }

  lemma MarksArePast(c: Config, s: State)
    requires Reachable(c, s)
    ensures MarksPast(s)
  {
    hide MarksPast, Enabled, Do, Init;
    var states: seq<State>, steps: seq<Step> :| IsRun(c, states, steps) && states[|steps|] == s;
    RunKeepsMarks(c, states, steps, |steps|);
  }

  lemma SwapEmptiesSlot(c: Config, s: State, t: Tid)
    requires t in s.pcs && SubmitEnabled(c, s, t, DoSwapPending)
    ensures var s' := DoSubmit(c, s, t, DoSwapPending);
            && s'.sh.pending == None
            && s'.pcs[t] == (if s.sh.pending.Some? then HavePending(s.pcs[t].ev, s.sh.pending.value) else Pushing(s.pcs[t].ev))
  {
  }

  /** No lost wake-up: an IRP parked in state i is out of the slot in every state k after a later
      submission (step j) has made its swap; it is never parked again. */
  lemma NoLostWakeup(c: Config, states: seq<State>, steps: seq<Step>, i: nat, j: nat, k: nat, irp: Irp)
    requires IsRun(c, states, steps) && i <= j < k <= |steps|
    requires states[i].sh.pending == Some(irp)
    requires steps[j].Submit? && steps[j].submit.DoSwapPending?
    ensures states[k].sh.pending != Some(irp)
  {
    hide Enabled, Do, Init, PastParking, Inv;
    RunHolds(c, states, steps, i);
    ParkedInv(c, states[i], irp);
    RunStaysOut(c, states, steps, i, j, irp);
    SwapStep(c, states[j], steps[j]);
    StepStaysOut(c, states[j], steps[j], irp);
    RunStaysOut(c, states, steps, j + 1, k, irp);
  }

  lemma ParkedInv(c: Config, s: State, irp: Irp)
    requires Inv(c, s) && s.sh.pending == Some(irp)
    ensures PastParking(s, irp)
  {
    assert IrpInv(s) by {
      hide BufInv, IrpInv, CtlInv, StageInv, PromiseInv, LossInv, CountInv, ContentInv, RequestInv,
           CopyInv, OutcomeInv, ReceiptInv, RoleInv, TruncInv, CommitInv;
    }
    hide Inv, IrpInv, PastParking;
    ParkedIsPast(s, irp);
  }

  lemma SwapStep(c: Config, s: State, a: Step)
    requires a.Submit? && a.submit.DoSwapPending? && Enabled(c, s, a)
    ensures Do(c, s, a).sh.pending == None
  {
    hide DoSubmit, SubmitEnabled;
    SwapEmptiesSlot(c, s, a.t);
  }

  // ---------------------------------------------------------------- completions are final

  ghost predicate DoneKept(s: State, s': State) {
    forall i :: i in s.io.completed ==> i in s'.io.completed && s'.io.completed[i] == s.io.completed[i]
  }

  lemma IrpKeepsDone(s: State, t: Tid, a: IrpStep)
    requires IrpInv(s) && t in s.pcs && IrpEnabled(s, t, a)
    ensures DoneKept(s, DoIrp(s, t, a))
  {
    hide IrpInv;
    if a.DoFinish? || a.DoReply? { OwnIrp(s, t); } else if a.DoCleanupCancel? { ExtraUncompleted(s, t); }
  }

  lemma UnloadKeepsDone(s: State, t: Tid, a: UnloadStep)
    requires IrpInv(s) && t in s.pcs && UnloadEnabled(s, t, a)
    ensures DoneKept(s, DoUnload(s, t, a))
  {
    hide IrpInv, NoneRunning;
    if a.DoUnloadCancel? { OwnIrp(s, t); }
  }

  lemma OthersKeepDone(c: Config, s: State, a: Step)
    requires Enabled(c, s, a) && !a.Handle? && !a.Teardown?
    ensures Do(c, s, a).io.completed == s.io.completed
  {
    hide CopyFaults, TouchFaults, EncodeHeader;
    match a
    case Spawn(_) =>
    case Build(_, _) =>
    case Submit(_, _) =>
    case Get(_, _) =>
  }

  lemma StepKeepsDone(c: Config, s: State, a: Step)
    requires IrpInv(s) && Enabled(c, s, a)
    ensures DoneKept(s, Do(c, s, a))
  {
    hide IrpInv, BuildEnabled, DoBuild, SubmitEnabled, DoSubmit, GetEnabled, DoGet, IrpEnabled, DoIrp, UnloadEnabled, DoUnload;
    match a
    case Handle(t, h) => IrpKeepsDone(s, t, h);
    case Teardown(t, u) => UnloadKeepsDone(s, t, u);
    case _ => OthersKeepDone(c, s, a);
  }

  /** An IRP is completed at most once: its completion never changes afterwards. */
  lemma {:induction false} CompletedOnce(c: Config, states: seq<State>, steps: seq<Step>, i: nat, k: nat)
    requires IsRun(c, states, steps) && i <= k <= |steps|
    ensures DoneKept(states[i], states[k])
  {
    hide Enabled, Do, Init, Inv;
    if i < k {
      CompletedOnce(c, states, steps, i, k - 1);
      RunHolds(c, states, steps, k - 1);
      IrpPart(c, states[k - 1]);
      StepKeepsDone(c, states[k - 1], steps[k - 1]);
    }
  }

  lemma IrpPart(c: Config, s: State)
    requires Inv(c, s)
    ensures IrpInv(s)
  {
    hide BufInv, IrpInv, CtlInv, StageInv, PromiseInv, LossInv, CountInv, ContentInv, RequestInv,
         CopyInv, OutcomeInv, ReceiptInv, RoleInv, TruncInv, CommitInv;
  }

  // ---------------------------------------------------------------- fates are final

  ghost predicate FatesKept(s: State, s': State) {
    forall b :: b in s.at.buf && !s.at.buf[b].Owned? ==> b in s'.at.buf && s'.at.buf[b] == s.at.buf[b]
  }

  lemma BuildKeepsFates(s: State, t: Tid, a: BuildStep)
    requires BufInv(s) && t in s.pcs && BuildEnabled(s, t, a)
    ensures FatesKept(s, DoBuild(s, t, a))
  {
    hide BufInv, EncodeHeader;
    NextIsNew(s);
  }

  lemma SubmitKeepsFates(c: Config, s: State, t: Tid, a: SubmitStep)
    requires BufInv(s) && t in s.pcs && SubmitEnabled(c, s, t, a)
    ensures FatesKept(s, DoSubmit(c, s, t, a))
  {
    hide BufInv, CopyFaults, TouchFaults;
    if a.Evict? { HeadBlock(s); } else if a.Enqueue? { OwnBlock(s, t); }
  }

  lemma GetKeepsFates(c: Config, s: State, t: Tid, a: GetStep)
    requires BufInv(s) && t in s.pcs && GetEnabled(s, t, a)
    ensures FatesKept(s, DoGet(c, s, t, a))
  {
    hide BufInv, CopyFaults;
    if a.Pop? { HeadBlock(s); }
  }

  lemma IrpKeepsFates(s: State, t: Tid, a: IrpStep)
    requires BufInv(s) && t in s.pcs && IrpEnabled(s, t, a)
    ensures FatesKept(s, DoIrp(s, t, a))
  {
    hide BufInv;
    if a.SettleFree? { OwnBlock(s, t); }
  }

  lemma UnloadKeepsFates(s: State, t: Tid, a: UnloadStep)
    requires BufInv(s) && t in s.pcs && UnloadEnabled(s, t, a)
    ensures FatesKept(s, DoUnload(s, t, a))
  {
    hide BufInv, NoneRunning;
    if a.DrainPop? { HeadBlock(s); } else if a.DoDrainFree? { OwnBlock(s, t); }
  }

  lemma StepKeepsFates(c: Config, s: State, a: Step)
    requires BufInv(s) && Enabled(c, s, a)
    ensures FatesKept(s, Do(c, s, a))
  {
    hide BufInv, BuildEnabled, DoBuild, SubmitEnabled, DoSubmit, GetEnabled, DoGet, IrpEnabled, DoIrp, UnloadEnabled, DoUnload;
    match a
    case Spawn(_) =>
    case Build(t, b) => BuildKeepsFates(s, t, b);
    case Submit(t, b) => SubmitKeepsFates(c, s, t, b);
    case Get(t, g) => GetKeepsFates(c, s, t, g);
    case Handle(t, h) => IrpKeepsFates(s, t, h);
    case Teardown(t, u) => UnloadKeepsFates(s, t, u);
  }

  /** The fate of an event is decided once: delivered, refused, evicted, drained or never allocated, it
      stays so for the rest of the run. */
  lemma {:induction false} FatesAreFinal(c: Config, states: seq<State>, steps: seq<Step>, i: nat, k: nat)
    requires IsRun(c, states, steps) && i <= k <= |steps|
    ensures FatesKept(states[i], states[k])
  {
    hide Enabled, Do, Init, Inv;
    if i < k {
      FatesAreFinal(c, states, steps, i, k - 1);
      RunHolds(c, states, steps, k - 1);
      BufPart(c, states[k - 1]);
      StepKeepsFates(c, states[k - 1], steps[k - 1]);
    }
  }

  /** The same from any reachable state along any path. */
  lemma FatesAlong(c: Config, s: State, s': State)
    requires Reachable(c, s) && Leads(c, s, s')
    ensures FatesKept(s, s')
  {
    hide Enabled, Do, Init, FatesKept;
    var st1: seq<State>, a1: seq<Step> :| IsRun(c, st1, a1) && st1[|a1|] == s;
    var st2: seq<State>, a2: seq<Step> :| IsPath(c, st2, a2) && st2[0] == s && st2[|a2|] == s';
    Joins(c, st1, a1, st2, a2);
    var st, a := st1[..|a1|] + st2, a1 + a2;
    assert IsRun(c, st, a) && st[|a1|] == s && st[|a|] == s';
    FatesAreFinal(c, st, a, |a1|, |a|);
  }

  /** In every continuation of `s` the event is where it is now. */
  ghost predicate StaysPut(c: Config, s: State, b: Buf) {
    b in s.at.buf && forall s' :: Leads(c, s, s') ==> b in s'.at.buf && s'.at.buf[b] == s.at.buf[b]
  }

  lemma FateStaysPut(c: Config, s: State, b: Buf)
    requires Reachable(c, s) && b in s.at.buf && !s.at.buf[b].Owned?
    ensures StaysPut(c, s, b)
  {
    hide Reachable, Leads;
    forall s' | Leads(c, s, s') ensures b in s'.at.buf && s'.at.buf[b] == s.at.buf[b] { FatesAlong(c, s, s'); }
  }

  lemma BufPart(c: Config, s: State)
    requires Inv(c, s)
    ensures BufInv(s)
  {
    hide BufInv, IrpInv, CtlInv, StageInv, PromiseInv, LossInv, CountInv, ContentInv, RequestInv,
         CopyInv, OutcomeInv, ReceiptInv, RoleInv, TruncInv, CommitInv;
  }

  // ---------------------------------------------------------------- conservation

  /** Where an event is: 0 never allocated, 1 with a callback, 2 queued, 3 with a dispatch routine or the
      unloader, 4 delivered, 5 evicted, 6 refused, 7 drained. */
  ghost function Kind(s: State, p: BufPlace): nat {
    match p
    case OutOfMemory => 0
    case Owned(ByThread(t)) => if t in s.kern.roles && s.kern.roles[t].Callback? then 1 else 3
    case Owned(ByRing(_)) => 2
    case Delivered(_) => 4
    case Evicted => 5
    case Refused(_) => 6
    case Drained => 7
  }

  ghost function OfKind(s: State, k: nat): set<Buf> { set b | b in s.at.buf && Kind(s, s.at.buf[b]) == k }
  ghost function FromKind(s: State, k: nat): set<Buf> { set b | b in s.at.buf && Kind(s, s.at.buf[b]) >= k }

  lemma PeelKind(s: State, k: nat)
    ensures |FromKind(s, k)| == |OfKind(s, k)| + |FromKind(s, k + 1)|
  {
    hide Kind;
    assert FromKind(s, k) == OfKind(s, k) + FromKind(s, k + 1);
    assert OfKind(s, k) !! FromKind(s, k + 1);
  }

  lemma {:induction false} BelowSize(n: nat, bs: set<Buf>)
    requires forall b: Buf :: b in bs <==> b < n
    ensures |bs| == n
  {
    if n == 0 {
      assert bs == {};
    } else {
      BelowSize(n - 1, bs - {n - 1});
    }
  }

  lemma KindSizes(s: State)
    requires BufInv(s)
    ensures s.pool.next == |OfKind(s, 0)| + |OfKind(s, 1)| + |OfKind(s, 2)| + |OfKind(s, 3)|
                           + |OfKind(s, 4)| + |OfKind(s, 5)| + |OfKind(s, 6)| + |OfKind(s, 7)|
  {
    assert FromKind(s, 8) == {};
    BelowSize(s.pool.next, FromKind(s, 0));
    hide OfKind, FromKind, BufInv;
    PeelKind(s, 0);
    PeelKind(s, 1);
    PeelKind(s, 2);
    PeelKind(s, 3);
    PeelKind(s, 4);
    PeelKind(s, 5);
    PeelKind(s, 6);
    PeelKind(s, 7);
  }

  /** The blocks in the hands of running callbacks, or of the other routines. */
  ghost function InHands(s: State, callback: bool): set<Buf> {
    set t | t in s.pcs && BufOf(s.pcs[t]).Some? && (t in s.kern.roles && s.kern.roles[t].Callback?) == callback
      :: BufOf(s.pcs[t]).value.data
  }

  lemma HandsAreKinds(s: State)
    requires BufInv(s)
    ensures OfKind(s, 1) == InHands(s, true) && OfKind(s, 3) == InHands(s, false)
  {
    forall b | b in s.at.buf && s.at.buf[b].Owned? && s.at.buf[b].owner.ByThread?
      ensures var t := s.at.buf[b].owner.t; t in s.pcs && BufOf(s.pcs[t]).Some? && BufOf(s.pcs[t]).value.data == b
    {
      HolderOf(s, b);
    }
    forall t | t in s.pcs && BufOf(s.pcs[t]).Some?
      ensures var b := BufOf(s.pcs[t]).value.data; b in s.at.buf && s.at.buf[b] == Owned(ByThread(t))
    {
      OwnBlock(s, t);
    }
    hide BufInv, BufOf;
  }

  /** The events in the first `k` positions of the ring. */
  ghost function RingFirst(s: State, k: nat): set<Buf> {
    set b | b in s.at.buf && s.at.buf[b].Owned? && s.at.buf[b].owner.ByRing?
            && s.at.dequeued <= s.at.buf[b].owner.n < s.at.dequeued + k
  }

  lemma RingGrows(s: State, k: nat, x: Buf)
    requires x in s.at.buf && s.at.buf[x] == Owned(ByRing(s.at.dequeued + k))
    requires forall b :: b in s.at.buf && s.at.buf[b] == s.at.buf[x] ==> b == x
    ensures RingFirst(s, k + 1) == RingFirst(s, k) + {x} && x !in RingFirst(s, k)
  {
    forall b | b in RingFirst(s, k + 1) && b !in RingFirst(s, k) ensures b == x {
      assert s.at.buf[b].owner.n == s.at.dequeued + k;
    }
  }

  lemma RingNone(s: State)
    ensures RingFirst(s, 0) == {}
  {
  }

  /** One event for each slot. */
  lemma {:induction false} QueuePrefix(s: State, k: nat)
    requires BufInv(s) && k <= |s.sh.queue|
    ensures |RingFirst(s, k)| == k
  {
    hide BufInv, RingFirst;
    if k == 0 {
      RingNone(s);
    } else {
      QueuePrefix(s, k - 1);
      var x := s.sh.queue[k - 1].data;
      RingSlot(s, k - 1);
      forall b | b in s.at.buf && s.at.buf[b] == s.at.buf[x] ensures b == x { SamePosition(s, b, x); }
      RingGrows(s, k - 1, x);
    }
  }

  lemma RingSlot(s: State, i: nat)
    requires BufInv(s) && i < |s.sh.queue|
    ensures var b := s.sh.queue[i].data; b in s.at.buf && s.at.buf[b] == Owned(ByRing(s.at.dequeued + i))
  {
    assert BlockOf(s, ByRing(s.at.dequeued + i)) == Some(s.sh.queue[i]);
  }

  lemma SamePosition(s: State, b: Buf, x: Buf)
    requires BufInv(s) && b in s.at.buf && x in s.at.buf && s.at.buf[b].Owned? && s.at.buf[b] == s.at.buf[x]
    ensures b == x
  {
    hide BlockOf;
  }

  lemma QueueIsKind(s: State)
    requires BufInv(s)
    ensures |OfKind(s, 2)| == |s.sh.queue|
  {
    QueuePrefix(s, |s.sh.queue|);
    forall b | b in OfKind(s, 2) ensures b in RingFirst(s, |s.sh.queue|) { RingPosition(s, b); }
    hide BufInv;
    assert OfKind(s, 2) == RingFirst(s, |s.sh.queue|);
  }

  lemma RingPosition(s: State, b: Buf)
    requires BufInv(s) && b in s.at.buf && s.at.buf[b].Owned? && s.at.buf[b].owner.ByRing?
    ensures b in RingFirst(s, |s.sh.queue|)
  {
  }

  ghost function FailedCalls(s: State): set<Buf> { set b | b in s.at.buf && s.at.buf[b].OutOfMemory? }
  ghost function EvictedEvents(s: State): set<Buf> { set b | b in s.at.buf && s.at.buf[b].Evicted? }
  ghost function RefusedEvents(s: State): set<Buf> { set b | b in s.at.buf && s.at.buf[b].Refused? }
  ghost function DrainedEvents(s: State): set<Buf> { set b | b in s.at.buf && s.at.buf[b].Drained? }

  lemma KindsAreFates(s: State)
    ensures OfKind(s, 0) == FailedCalls(s) && OfKind(s, 4) == DeliveredEvents(s) && OfKind(s, 5) == EvictedEvents(s)
    ensures OfKind(s, 6) == RefusedEvents(s) && OfKind(s, 7) == DrainedEvents(s)
  {
  }

  /** Conservation: the calls of `alloc_event` are the failed ones, the events in callbacks' hands, the
      queued ones, those in other routines' hands, and the delivered, evicted, refused and drained ones. */
  lemma Conservation(c: Config, s: State)
    requires Reachable(c, s)
    ensures s.pool.next == |FailedCalls(s)| + |InHands(s, true)| + |s.sh.queue| + |InHands(s, false)|
                           + |DeliveredEvents(s)| + |EvictedEvents(s)| + |RefusedEvents(s)| + |DrainedEvents(s)|
  {
    hide *;
    Families(c, s);
    KindsAreFates(s);
    KindSizes(s);
    HandsAreKinds(s);
    QueueIsKind(s);
  }

  // ---------------------------------------------------------------- unload

  lemma NothingLeft(s: State, u: Tid)
    requires BufInv(s) && IrpInv(s) && RoleInv(s) && Tracked(s)
    requires s.kern.unloader == Some(u) && u in s.pcs && s.pcs[u].Unloaded?
    ensures forall t :: t in s.pcs && t != u ==> s.pcs[t].Idle?
    ensures s.sh.queue == [] && s.sh.pending == None && s.kern.registered == {}
  {
    forall t | t in s.pcs && t != u ensures s.pcs[t].Idle? && s.kern.registered == {} { Quiet(s, t); }
    if s.kern.registered != {} {
      assert RemovedUpTo(s, CLASSES);
      AllRemoved(s);
    }
    hide BufInv, IrpInv, CallbackPc, DispatchPc, RemovedUpTo;
  }

  lemma IdleOwnsNothing(s: State, u: Tid)
    requires BufInv(s) && IrpInv(s) && s.sh.queue == [] && s.sh.pending == None && u in s.pcs && s.pcs[u].Unloaded?
    requires forall t :: t in s.pcs && t != u ==> s.pcs[t].Idle?
    ensures s.pool.mem == map[]
    ensures forall i :: i in s.io.reqs ==> i in s.io.completed
  {
    assert forall o :: BlockOf(s, o) == None;
    assert forall o :: IrpOf(s, o) == None;
    hide BlockOf, IrpOf;
  }

  /** When `driver_unload` has returned, every block is freed, the ring and the slot are empty, every
      callback is removed, no routine is running and every IRP ever received is completed. */
  lemma UnloadLeavesNothing(c: Config, s: State, u: Tid)
    requires Reachable(c, s) && Tracked(s) && s.kern.unloader == Some(u) && u in s.pcs && s.pcs[u].Unloaded?
    ensures s.pool.mem == map[] && s.sh.queue == [] && s.sh.pending == None && s.kern.registered == {}
    ensures forall t :: t in s.pcs && t != u ==> s.pcs[t].Idle?
    ensures forall i :: i in s.io.reqs ==> i in s.io.completed
  {
    hide *;
    Families(c, s);
    NothingLeft(s, u);
    IdleOwnsNothing(s, u);
  }

  /** Steps left for the unloading thread once the callbacks are removed. */
  function StepsLeft(pc: Pc, queued: nat): nat {
    match pc
    case UnloadSwap => 2 * queued + 4
    case UnloadCancel(_) => 2 * queued + 3
    case UnloadLock => 2 * queued + 2
    case Drain => 2 * queued + 1
    case DrainFree(_) => 2 * queued + 2
    case _ => 0
  }

  lemma OnlyUnloader(c: Config, s: State, a: Step, u: Tid)
    requires RoleInv(s) && Tracked(s) && s.kern.unloader == Some(u) && u in s.pcs && UnloadPc(s.pcs[u]) && !s.pcs[u].Deregister?
    requires Enabled(c, s, a) && !a.Spawn?
    ensures a.Teardown? && a.t == u
  {
    hide RoleInv, NoneRunning;
    if a.t != u { Quiet(s, a.t); }
    if a.Build? && a.build.StartCallback? { NoneRegistered(s, u); }
  }

  lemma NoneRegistered(s: State, u: Tid)
    requires RoleInv(s) && Tracked(s) && s.kern.unloader == Some(u) && u in s.pcs && !s.pcs[u].Deregister?
    ensures s.kern.registered == {}
  {
    assert RemovedUpTo(s, CLASSES);
    AllRemoved(s);
  }

  /** Teardown terminates: once the callbacks are removed, the only enabled steps are those of the
      unloading thread, and each brings it closer to the end of the drain loop. */
  lemma TeardownTerminates(c: Config, s: State, a: Step, u: Tid)
    requires Reachable(c, s) && Tracked(s)
    requires s.kern.unloader == Some(u) && u in s.pcs && UnloadPc(s.pcs[u]) && !s.pcs[u].Deregister?
    requires Enabled(c, s, a) && !a.Spawn?
    ensures a.Teardown? && a.t == u
    ensures var s' := Do(c, s, a);
            u in s'.pcs && StepsLeft(s'.pcs[u], |s'.sh.queue|) < StepsLeft(s.pcs[u], |s.sh.queue|)
  {
    Families(c, s) by { hide *; }
    OnlyUnloader(c, s, a, u) by { hide *; }
    UnloaderAdvances(s, u, a.teardown) by { hide Reachable, RoleInv, NoneRunning, DoUnload; }
    hide Reachable, NoneRunning, DoUnload;
  }

  lemma UnloaderAdvances(s: State, u: Tid, a: UnloadStep)
    requires u in s.pcs && UnloadPc(s.pcs[u]) && !s.pcs[u].Deregister? && UnloadEnabled(s, u, a)
    ensures var s' := DoUnload(s, u, a);
            u in s'.pcs && StepsLeft(s'.pcs[u], |s'.sh.queue|) < StepsLeft(s.pcs[u], |s.sh.queue|)
  {
    hide NoneRunning;
  }
}
