/** One inductive invariant for the whole protocol, and its proof over every run. */
module Invariant {
  import opened Wire
  import opened Protocol
  import opened Subsequences
  import opened Buffers
  import opened Irps
  import opened Control
  import opened Ordering
  import opened Fates
  import opened Commitments
  import opened Accounting
  import opened Contents
  import opened Stamps
  import opened Requests
  import opened Delivery
  import opened Safety
  import opened Roles

  ghost predicate Inv(c: Config, s: State) {
    && BufInv(s) && IrpInv(s) && CtlInv(c, s) && OrderInv(s) && StageInv(s) && PromiseInv(s)
    && LossInv(s) && CountInv(s) && ContentInv(s) && StampInv(s) && RequestInv(s)
    && CopyInv(s) && OutcomeInv(s) && ReceiptInv(s) && FaultInv(c, s) && RoleInv(s) && TruncInv(s) && CommitInv(s)
  }

  lemma InitOwnership(s: State)
    requires Init(s)
    ensures BufInv(s) && IrpInv(s)
  {
    assert forall o :: BlockOf(s, o) == None;
    assert forall o :: IrpOf(s, o) == None;
  }

  lemma InitOrder(c: Config, s: State)
    requires Init(s)
    ensures CtlInv(c, s) && OrderInv(s)
  {
    assert Embeds([], Stream(s), s.order.submitted);
  }

  lemma InitStages(s: State)
    requires Init(s)
    ensures StageInv(s) && PromiseInv(s) && ContentInv(s)
  {
  }

  lemma InitCounts(s: State)
    requires Init(s)
    ensures LossInv(s) && CountInv(s) && StampInv(s) && TruncInv(s) && CommitInv(s)
  {
  }

  lemma InitDelivery(c: Config, s: State)
    requires Init(s)
    ensures RequestInv(s) && CopyInv(s) && OutcomeInv(s) && ReceiptInv(s) && FaultInv(c, s) && RoleInv(s)
  {
  }

  lemma InitHolds(c: Config, s: State)
    requires Init(s)
    ensures Inv(c, s)
  {
    hide BufInv, IrpInv, CtlInv, OrderInv, StageInv, PromiseInv, LossInv, CountInv, ContentInv, StampInv, RequestInv,
         CopyInv, OutcomeInv, ReceiptInv, FaultInv, RoleInv, TruncInv, CommitInv;
    InitOwnership(s);
    InitOrder(c, s);
    InitStages(s);
    InitCounts(s);
    InitDelivery(c, s);
  }

  lemma SpawnKeepsOthers(c: Config, s: State, t: Tid)
    requires OrderInv(s) && PromiseInv(s) && ContentInv(s) && StampInv(s) && RequestInv(s) && CopyInv(s) && OutcomeInv(s)
    requires t !in s.pcs
    ensures var s' := Goto(s, t, Idle);
            OrderInv(s') && PromiseInv(s') && ContentInv(s') && StampInv(s') && RequestInv(s') && CopyInv(s') && OutcomeInv(s')
  {
    var s' := Goto(s, t, Idle);
    assert Promised(s'.pcs[t]) == false;
    assert HandOf(s'.pcs[t]) == [];
    PromisesAtSpawn(s, s', t);
    RequestsAtSpawn(s, s', t);
    hide OrderInv, PromiseInv, ContentInv, StampInv, RequestInv, CopyInv, OutcomeInv;
    SameStream(s, s', t);
    SameContents(s, s');
    SameStamps(s, s', t);
    SameCopies(s, s', t);
    SameOutcomes(s, s');
  }

  lemma PromisesAtSpawn(s: State, s': State, t: Tid)
    requires PromiseInv(s) && t !in s.pcs && s' == Goto(s, t, Idle)
    ensures PromiseInv(s')
  {
  }

  lemma RequestsAtSpawn(s: State, s': State, t: Tid)
    requires RequestInv(s) && t !in s.pcs && s' == Goto(s, t, Idle)
    ensures RequestInv(s')
  {
    RequestsKept(s, s', t);
  }

  lemma RolesAtSpawn(s: State, s': State, t: Tid)
    requires RoleInv(s) && t !in s.pcs && s' == Goto(s, t, Idle)
    ensures RoleInv(s')
  {
    SameRemoved(s, s');
    hide RemovedUpTo, CallbackPc, DispatchPc;
    forall u | u in s'.pcs ensures RoleOk(s', u) {
      if u != t { assert RoleOk(s, u); }
    }
  }

  lemma SpawnKeepsInv(c: Config, s: State, t: Tid)
    requires Inv(c, s) && t !in s.pcs
    ensures Inv(c, Goto(s, t, Idle))
  {
    hide BufInv, IrpInv, CtlInv, OrderInv, StageInv, PromiseInv, LossInv, CountInv, ContentInv, StampInv, RequestInv,
         CopyInv, OutcomeInv, ReceiptInv, FaultInv, RoleInv, TruncInv, CommitInv;
    var s' := Goto(s, t, Idle);
    SpawnKeepsOthers(c, s, t);
    SameBlock(s, s', t);
    SameIrps(s, s', t);
    Outside(c, s, s', t);
    NewThread(s, s', t);
    SameLosses(s, s', t);
    assert CountInv(s') by { SameCounts(s, s'); }
    ReceiptsKept(s, s', t);
    SameFaults(c, s, s');
    RolesAtSpawn(s, s', t);
    SameTruncs(s, s');
    CommitsAtSpawn(s, s', t);
  }

  lemma CommitsAtSpawn(s: State, s': State, t: Tid)
    requires CommitInv(s) && t !in s.pcs && s' == Goto(s, t, Idle)
    ensures CommitInv(s')
  {
    AllPlaced(s);
    hide CommitInv;
    CommitsKept(s, s', t);
  }

  lemma SameCounts(s: State, s': State)
    requires CountInv(s) && s'.sh == s.sh && s'.acc == s.acc
    ensures CountInv(s')
  {
  }

  lemma BuildKeepsInv(c: Config, s: State, t: Tid, a: BuildStep)
    requires Inv(c, s) && t in s.pcs && BuildEnabled(s, t, a)
    ensures Inv(c, DoBuild(s, t, a))
  {
    hide BufInv, IrpInv, CtlInv, OrderInv, StageInv, PromiseInv, LossInv, CountInv, ContentInv, StampInv, RequestInv,
         CopyInv, OutcomeInv, ReceiptInv, FaultInv, RoleInv, BuildEnabled, DoBuild, TruncInv, CommitInv;
    BuildKeepsBuffers(s, t, a);
    BuildKeepsIrps(s, t, a);
    BuildKeepsControl(c, s, t, a);
    BuildKeepsOrder(s, t, a);
    BuildKeepsStages(s, t, a);
    BuildKeepsPromises(s, t, a);
    BuildKeepsLosses(s, t, a);
    BuildKeepsCounts(s, t, a);
    BuildKeepsContents(s, t, a);
    BuildKeepsStamps(s, t, a);
    BuildKeepsRequests(s, t, a);
    BuildKeepsCopies(s, t, a);
    BuildKeepsOutcomes(s, t, a);
    BuildKeepsReceipts(s, t, a);
    BuildIsSafe(c, s, t, a);
    BuildKeepsRoles(s, t, a);
    BuildKeepsTruncs(s, t, a);
    BuildKeepsCommits(s, t, a);
  }

  lemma SubmitKeepsInv(c: Config, s: State, t: Tid, a: SubmitStep)
    requires Inv(c, s) && t in s.pcs && SubmitEnabled(c, s, t, a)
    ensures Inv(c, DoSubmit(c, s, t, a))
  {
    hide BufInv, IrpInv, CtlInv, OrderInv, StageInv, PromiseInv, LossInv, CountInv, ContentInv, StampInv, RequestInv,
         CopyInv, OutcomeInv, ReceiptInv, FaultInv, RoleInv, SubmitEnabled, DoSubmit, TruncInv, CommitInv;
    SubmitKeepsBuffers(c, s, t, a);
    SubmitKeepsIrps(c, s, t, a);
    SubmitKeepsControl(c, s, t, a);
    SubmitKeepsOrder(c, s, t, a);
    SubmitKeepsStages(c, s, t, a);
    SubmitKeepsPromises(c, s, t, a);
    SubmitKeepsLosses(c, s, t, a);
    SubmitKeepsCounts(c, s, t, a);
    SubmitKeepsContents(c, s, t, a);
    SubmitKeepsStamps(c, s, t, a);
    SubmitKeepsRequests(c, s, t, a);
    SubmitKeepsCopies(c, s, t, a);
    SubmitKeepsOutcomes(c, s, t, a);
    SubmitKeepsReceipts(c, s, t, a);
    SubmitIsSafe(c, s, t, a);
    SubmitKeepsRoles(c, s, t, a);
    SubmitKeepsTruncs(c, s, t, a);
    SubmitKeepsCommits(c, s, t, a);
  }

  lemma GetKeepsInv(c: Config, s: State, t: Tid, a: GetStep)
    requires Inv(c, s) && t in s.pcs && GetEnabled(s, t, a)
    ensures Inv(c, DoGet(c, s, t, a))
  {
    hide BufInv, IrpInv, CtlInv, OrderInv, StageInv, PromiseInv, LossInv, CountInv, ContentInv, StampInv, RequestInv,
         CopyInv, OutcomeInv, ReceiptInv, FaultInv, RoleInv, GetEnabled, DoGet, TruncInv, CommitInv;
    GetKeepsBuffers(c, s, t, a);
    GetKeepsIrps(c, s, t, a);
    GetKeepsControl(c, s, t, a);
    GetKeepsOrder(c, s, t, a);
    GetKeepsStages(c, s, t, a);
    GetKeepsPromises(c, s, t, a);
    GetKeepsLosses(c, s, t, a);
    GetKeepsCounts(c, s, t, a);
    GetKeepsContents(c, s, t, a);
    GetKeepsStamps(c, s, t, a);
    GetKeepsRequests(c, s, t, a);
    GetKeepsCopies(c, s, t, a);
    GetKeepsOutcomes(c, s, t, a);
    GetKeepsReceipts(c, s, t, a);
    GetIsSafe(c, s, t, a);
    GetKeepsRoles(c, s, t, a);
    GetKeepsTruncs(c, s, t, a);
    GetKeepsCommits(c, s, t, a);
  }

  lemma IrpKeepsInv(c: Config, s: State, t: Tid, a: IrpStep)
    requires Inv(c, s) && t in s.pcs && IrpEnabled(s, t, a)
    ensures Inv(c, DoIrp(s, t, a))
  {
    hide BufInv, IrpInv, CtlInv, OrderInv, StageInv, PromiseInv, LossInv, CountInv, ContentInv, StampInv, RequestInv,
         CopyInv, OutcomeInv, ReceiptInv, FaultInv, RoleInv, IrpEnabled, DoIrp, TruncInv, CommitInv;
    IrpKeepsBuffers(s, t, a);
    IrpKeepsIrps(s, t, a);
    IrpKeepsControl(c, s, t, a);
    IrpKeepsOrder(s, t, a);
    IrpKeepsStages(s, t, a);
    IrpKeepsPromises(s, t, a);
    IrpKeepsLosses(s, t, a);
    IrpKeepsCounts(s, t, a);
    IrpKeepsContents(s, t, a);
    IrpKeepsStamps(s, t, a);
    IrpKeepsRequests(s, t, a);
    IrpKeepsCopies(s, t, a);
    IrpKeepsOutcomes(s, t, a);
    IrpKeepsReceipts(s, t, a);
    IrpIsSafe(c, s, t, a);
    IrpKeepsRoles(s, t, a);
    IrpKeepsTruncs(s, t, a);
    IrpKeepsCommits(s, t, a);
  }

  lemma UnloadKeepsInv(c: Config, s: State, t: Tid, a: UnloadStep)
    requires Inv(c, s) && t in s.pcs && UnloadEnabled(s, t, a)
    ensures Inv(c, DoUnload(s, t, a))
  {
    hide BufInv, IrpInv, CtlInv, OrderInv, StageInv, PromiseInv, LossInv, CountInv, ContentInv, StampInv, RequestInv,
         CopyInv, OutcomeInv, ReceiptInv, FaultInv, RoleInv, UnloadEnabled, DoUnload, TruncInv, CommitInv;
    UnloadKeepsBuffers(s, t, a);
    UnloadKeepsIrps(s, t, a);
    UnloadKeepsControl(c, s, t, a);
    UnloadKeepsOrder(c, s, t, a);
    UnloadKeepsStages(s, t, a);
    UnloadKeepsPromises(s, t, a);
    UnloadKeepsLosses(s, t, a);
    UnloadKeepsCounts(s, t, a);
    UnloadKeepsContents(s, t, a);
    UnloadKeepsStamps(s, t, a);
    UnloadKeepsRequests(s, t, a);
    UnloadKeepsCopies(s, t, a);
    UnloadKeepsOutcomes(s, t, a);
    UnloadKeepsReceipts(s, t, a);
    UnloadIsSafe(c, s, t, a);
    UnloadKeepsRoles(s, t, a);
    UnloadKeepsTruncs(s, t, a);
    UnloadKeepsCommits(s, t, a);
  }

  lemma StepKeepsInv(c: Config, s: State, a: Step)
    requires Inv(c, s) && Enabled(c, s, a)
    ensures Inv(c, Do(c, s, a))
  {
    hide Inv, BuildEnabled, DoBuild, SubmitEnabled, DoSubmit, GetEnabled, DoGet, IrpEnabled, DoIrp, UnloadEnabled, DoUnload;
    match a
    case Spawn(t) => SpawnKeepsInv(c, s, t);
    case Build(t, b) => BuildKeepsInv(c, s, t, b);
    case Submit(t, b) => SubmitKeepsInv(c, s, t, b);
    case Get(t, g) => GetKeepsInv(c, s, t, g);
    case Handle(t, h) => IrpKeepsInv(c, s, t, h);
    case Teardown(t, u) => UnloadKeepsInv(c, s, t, u);
  }

  /** The invariant holds in every state of every run, for any number of threads. */
  lemma {:induction false} RunHolds(c: Config, states: seq<State>, steps: seq<Step>, i: nat)
    requires IsRun(c, states, steps) && i <= |steps|
    ensures Inv(c, states[i])
  {
    hide Inv, Enabled, Do, Init;
    if i == 0 {
      InitHolds(c, states[0]);
    } else {
      RunHolds(c, states, steps, i - 1);
      StepKeepsInv(c, states[i - 1], steps[i - 1]);
    }
  }
}
