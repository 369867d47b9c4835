/** With what each request is answered: those that ask for no event, and those with too little room. */
module Answers {
  import opened Wire
  import opened Protocol
  import opened Buffers
  import opened Irps
  import opened Fates
  import opened Contents
  import opened Requests
  import opened Delivery
  import opened Invariant
  import opened Runs
  import opened Production

  // ---------------------------------------------------------------- requests for no event

  ghost predicate RepliesInv(s: State) {
    forall i :: i in s.io.completed && i in s.io.reqs && !s.io.reqs[i].GetEvent? ==>
      s.io.completed[i] == Completion(ReplyStatus(s.io.reqs[i]), 0)
  }

  lemma OldCompletions(s: State)
    requires IrpInv(s)
    ensures forall i :: i in s.io.completed ==> i in s.io.reqs
  {
    hide IrpOf;
  }

  lemma IrpKeepsReplies(s: State, t: Tid, a: IrpStep)
    requires RepliesInv(s) && IrpInv(s) && RequestInv(s) && t in s.pcs && IrpEnabled(s, t, a)
    ensures RepliesInv(DoIrp(s, t, a))
  {
    RequestFacts(s, t) by { hide *; }
    OldCompletions(s) by { hide *; }
    hide IrpInv, RequestInv, ReplyStatus;
  }

  lemma UnloadKeepsReplies(s: State, t: Tid, a: UnloadStep)
    requires RepliesInv(s) && RequestInv(s) && t in s.pcs && UnloadEnabled(s, t, a)
    ensures RepliesInv(DoUnload(s, t, a))
  {
    RequestFacts(s, t) by { hide *; }
    hide RequestInv, ReplyStatus, NoneRunning;
  }

  lemma OthersKeepReplies(c: Config, s: State, a: Step)
    requires RepliesInv(s) && Enabled(c, s, a) && !a.Handle? && !a.Teardown?
    ensures RepliesInv(Do(c, s, a))
  {
    OthersKeepDone(c, s, a) by { hide *; }
    OthersKeepRequests(c, s, a) by { hide *; }
    hide Enabled, Do, ReplyStatus;
  }

  lemma OthersKeepRequests(c: Config, s: State, a: Step)
    requires Enabled(c, s, a) && !a.Handle? && !a.Teardown?
    ensures Do(c, s, a).io.reqs == s.io.reqs
  {
    hide CopyFaults, TouchFaults, EncodeHeader;
    match a
    case Spawn(_) =>
    case Build(_, _) =>
    case Submit(_, _) =>
    case Get(_, _) =>
  }

  lemma StepKeepsReplies(c: Config, s: State, a: Step)
    requires RepliesInv(s) && IrpInv(s) && RequestInv(s) && Enabled(c, s, a)
    ensures RepliesInv(Do(c, s, a))
  {
    hide RepliesInv, IrpInv, RequestInv, IrpEnabled, DoIrp, UnloadEnabled, DoUnload, BuildEnabled, DoBuild, SubmitEnabled,
         DoSubmit, GetEnabled, DoGet;
    match a
    case Handle(t, h) => IrpKeepsReplies(s, t, h);
    case Teardown(t, u) => UnloadKeepsReplies(s, t, u);
    case _ => OthersKeepReplies(c, s, a);
  }

  // ---------------------------------------------------------------- requests with too little room

  /** Event `b`, of `n` bytes, was refused to request `i`. */
  ghost predicate RefusedTo(s: State, b: Buf, i: Irp, n: nat) {
    PlacedAt(s, b, Refused(i)) && b in s.rec.built && b in s.rec.headers && |s.rec.built[b]| == n
  }

  predicate Refuses(pc: Pc) { pc.CountRefusal? || (pc.Finish? && !pc.fits) }

  ghost predicate RefusalInv(s: State) {
    && (forall t :: t in s.pcs && Refuses(s.pcs[t]) ==> RefusedTo(s, s.pcs[t].gone.data, s.pcs[t].irp, s.pcs[t].gone.size))
    && (forall i :: i in s.io.completed && s.io.completed[i].status == BufferTooSmall ==>
          exists b :: RefusedTo(s, b, i, s.io.completed[i].info))
  }

  /** A refusal once made stays on record. */
  ghost predicate RefusalsKept(s: State, s': State) {
    forall b, i, n :: RefusedTo(s, b, i, n) ==> RefusedTo(s', b, i, n)
  }

  lemma StepKeepsRefusals(c: Config, s: State, a: Step)
    requires BufInv(s) && StageInv(s) && Enabled(c, s, a)
    ensures RefusalsKept(s, Do(c, s, a))
  {
    StepKeepsFates(c, s, a) by { hide *; }
    forall b, i, n | RefusedTo(s, b, i, n) ensures RefusedTo(Do(c, s, a), b, i, n) {
      StepKeepsRecord(c, s, a, b) by { hide BufInv, StageInv, Enabled, Do; }
      hide BufInv, StageInv, Enabled, Do;
    }
  }

  lemma RefusalsStand(s: State, s': State, t: Tid)
    requires RefusalInv(s) && RefusalsKept(s, s') && Moves(s, s', t)
    requires Refuses(s'.pcs[t]) ==> RefusedTo(s', s'.pcs[t].gone.data, s'.pcs[t].irp, s'.pcs[t].gone.size)
    requires forall i :: i in s'.io.completed && s'.io.completed[i].status == BufferTooSmall ==>
               (i in s.io.completed && s'.io.completed[i] == s.io.completed[i])
               || (t in s.pcs && Refuses(s.pcs[t]) && s.pcs[t].irp == i && s.pcs[t].gone.size == s'.io.completed[i].info)
    ensures RefusalInv(s')
  {
    hide RefusedTo;
    forall i | i in s'.io.completed && s'.io.completed[i].status == BufferTooSmall
      ensures exists b :: RefusedTo(s', b, i, s'.io.completed[i].info)
    {
      if i in s.io.completed && s'.io.completed[i] == s.io.completed[i] {
        var b :| RefusedTo(s, b, i, s.io.completed[i].info);
        assert RefusedTo(s', b, i, s.io.completed[i].info);
      } else {
        assert RefusedTo(s', s.pcs[t].gone.data, i, s.pcs[t].gone.size);
      }
    }
  }

  lemma OwnRefusal(s: State, t: Tid)
    requires RefusalInv(s) && t in s.pcs && Refuses(s.pcs[t])
    ensures RefusedTo(s, s.pcs[t].gone.data, s.pcs[t].irp, s.pcs[t].gone.size)
  {
    hide RefusedTo, Refuses;
  }

  /** A settled event was submitted as long as its slot tells. */
  lemma SettledSize(s: State, t: Tid)
    requires BufInv(s) && StageInv(s) && ContentInv(s) && t in s.pcs && s.pcs[t].Settle?
    ensures var b := s.pcs[t].ev.data; b in s.rec.built && b in s.rec.headers && |s.rec.built[b]| == s.pcs[t].ev.size
  {
    AtStage(s, t) by { hide BufInv, StageInv, ContentInv; }
    hide BufInv, StageInv, HeaderAt;
  }

  lemma FreeKeepsRefusals(s: State, t: Tid)
    requires RefusalInv(s) && BufInv(s) && StageInv(s) && ContentInv(s) && t in s.pcs && s.pcs[t].Settle?
    requires RefusalsKept(s, SettleFreeStep(s, t))
    ensures RefusalInv(SettleFreeStep(s, t))
  {
    SettledSize(s, t) by { hide BufInv, StageInv, ContentInv, RefusalInv, RefusalsKept; }
    hide BufInv, StageInv, ContentInv, RefusalInv, RefusalsKept;
    RefusalsStand(s, SettleFreeStep(s, t), t);
  }

  lemma StillRefused(s: State, s': State, t: Tid)
    requires RefusalInv(s) && RefusalsKept(s, s') && t in s.pcs && Refuses(s.pcs[t])
    ensures RefusedTo(s', s.pcs[t].gone.data, s.pcs[t].irp, s.pcs[t].gone.size)
  {
    OwnRefusal(s, t);
    hide RefusalInv, RefusedTo, Refuses;
  }

  lemma CountKeepsRefusals(s: State, t: Tid, a: IrpStep)
    requires RefusalInv(s) && t in s.pcs && IrpEnabled(s, t, a) && a.DoCountRefusal? && RefusalsKept(s, DoIrp(s, t, a))
    ensures RefusalInv(DoIrp(s, t, a))
  {
    StillRefused(s, DoIrp(s, t, a), t) by { hide RefusalInv, RefusalsKept; }
    hide RefusalInv, RefusalsKept, RefusedTo;
    RefusalsStand(s, DoIrp(s, t, a), t);
  }

  lemma FinishKeepsRefusals(s: State, t: Tid)
    requires RefusalInv(s) && t in s.pcs && s.pcs[t].Finish? && RefusalsKept(s, FinishStep(s, t))
    ensures RefusalInv(FinishStep(s, t))
  {
    hide RefusalInv, RefusalsKept, RefusedTo;
    RefusalsStand(s, FinishStep(s, t), t);
  }

  lemma SettleKeepsRefusals(s: State, t: Tid, a: IrpStep)
    requires RefusalInv(s) && BufInv(s) && StageInv(s) && ContentInv(s) && t in s.pcs && IrpEnabled(s, t, a) && Settles(a)
    requires RefusalsKept(s, DoIrp(s, t, a))
    ensures RefusalInv(DoIrp(s, t, a))
  {
    hide BufInv, StageInv, ContentInv, RefusalInv, RefusalsKept, SettleFreeStep, FinishStep;
    match a
    case SettleFree => FreeKeepsRefusals(s, t);
    case DoCountRefusal => CountKeepsRefusals(s, t, a);
    case DoFinish => FinishKeepsRefusals(s, t);
  }

  /** The step completes nothing as too small, and leads to no refusal. */
  ghost predicate NothingRefused(s: State, s': State, t: Tid) {
    && Moves(s, s', t) && !Refuses(s'.pcs[t])
    && forall i :: i in s'.io.completed && s'.io.completed[i].status == BufferTooSmall ==>
         i in s.io.completed && s'.io.completed[i] == s.io.completed[i]
  }

  lemma NothingNew(s: State, s': State, t: Tid)
    requires RefusalInv(s) && RefusalsKept(s, s') && NothingRefused(s, s', t)
    ensures RefusalInv(s')
  {
    hide RefusalInv, RefusalsKept, Refuses;
    RefusalsStand(s, s', t);
  }

  lemma DispatchRefusesNone(s: State, t: Tid, a: IrpStep)
    requires RequestInv(s) && t in s.pcs && IrpEnabled(s, t, a) && !Settles(a)
    ensures NothingRefused(s, DoIrp(s, t, a), t)
  {
    RequestFacts(s, t) by { hide *; }
    hide RequestInv;
  }

  lemma BuildRefusesNone(s: State, t: Tid, a: BuildStep)
    requires t in s.pcs && BuildEnabled(s, t, a)
    ensures NothingRefused(s, DoBuild(s, t, a), t)
  {
    hide EncodeHeader;
  }

  lemma SubmitRefusesNone(c: Config, s: State, t: Tid, a: SubmitStep)
    requires t in s.pcs && SubmitEnabled(c, s, t, a)
    ensures NothingRefused(s, DoSubmit(c, s, t, a), t)
  {
    hide CopyFaults, TouchFaults;
  }

  lemma GetRefusesNone(c: Config, s: State, t: Tid, a: GetStep)
    requires t in s.pcs && GetEnabled(s, t, a)
    ensures NothingRefused(s, DoGet(c, s, t, a), t)
  {
    hide CopyFaults;
  }

  lemma UnloadRefusesNone(s: State, t: Tid, a: UnloadStep)
    requires t in s.pcs && UnloadEnabled(s, t, a)
    ensures NothingRefused(s, DoUnload(s, t, a), t)
  {
    hide NoneRunning;
  }

  lemma StepKeepsRefusalInv(c: Config, s: State, a: Step)
    requires RefusalInv(s) && BufInv(s) && StageInv(s) && ContentInv(s) && RequestInv(s) && Enabled(c, s, a)
    ensures RefusalInv(Do(c, s, a))
  {
    StepKeepsRefusals(c, s, a) by { hide *; }
    hide RefusalInv, RefusalsKept, NothingRefused, BufInv, StageInv, ContentInv, RequestInv, BuildEnabled, DoBuild,
         SubmitEnabled, DoSubmit, GetEnabled, DoGet, IrpEnabled, DoIrp, UnloadEnabled, DoUnload;
    var s' := Do(c, s, a);
    match a
    case Spawn(t) => SpawnRefusesNone(c, s, t); NothingNew(s, s', t);
    case Build(t, b) => BuildRefusesNone(s, t, b); NothingNew(s, s', t);
    case Submit(t, b) => SubmitRefusesNone(c, s, t, b); NothingNew(s, s', t);
    case Get(t, g) => GetRefusesNone(c, s, t, g); NothingNew(s, s', t);
    case Teardown(t, u) => UnloadRefusesNone(s, t, u); NothingNew(s, s', t);
    case Handle(t, h) =>
      if Settles(h) {
        SettleKeepsRefusals(s, t, h);
      } else {
        DispatchRefusesNone(s, t, h);
        NothingNew(s, s', t);
      }
  }

  lemma SpawnRefusesNone(c: Config, s: State, t: Tid)
    ensures NothingRefused(s, Goto(s, t, Idle), t)
  {
  }

  // ---------------------------------------------------------------- over every run

  lemma AnswerParts(c: Config, s: State)
    requires Inv(c, s)
    ensures BufInv(s) && IrpInv(s) && StageInv(s) && ContentInv(s) && RequestInv(s)
  {
    hide BufInv, IrpInv, StageInv, ContentInv, RequestInv;
  }

  lemma NoneAnswered(s: State)
    requires Init(s)
    ensures RepliesInv(s) && RefusalInv(s)
  {
  }

  lemma {:induction false} RunKeepsAnswers(c: Config, states: seq<State>, steps: seq<Step>, m: nat)
    requires IsRun(c, states, steps) && m <= |steps|
    ensures RepliesInv(states[m]) && RefusalInv(states[m])
  {
    hide Enabled, Do, Init, Inv, RepliesInv, RefusalInv;
    if m == 0 {
      NoneAnswered(states[0]);
    } else {
      RunKeepsAnswers(c, states, steps, m - 1);
      RunHolds(c, states, steps, m - 1);
      AnswerParts(c, states[m - 1]);
      StepKeepsReplies(c, states[m - 1], steps[m - 1]);
      StepKeepsRefusalInv(c, states[m - 1], steps[m - 1]);
    }
  }

  lemma AnswersHold(c: Config, s: State)
    requires Reachable(c, s)
    ensures RepliesInv(s) && RefusalInv(s)
  {
    hide Enabled, Do, Init, RepliesInv, RefusalInv;
    var states: seq<State>, steps: seq<Step> :| IsRun(c, states, steps) && states[|steps|] == s;
    RunKeepsAnswers(c, states, steps, |steps|);
  }

  /** Opening, closing and cleanup always succeed, and every request that the driver does not know is
      answered as invalid; none of them transfers anything. */
  lemma OtherOutcomes(c: Config, s: State, i: Irp)
    requires Reachable(c, s) && i in s.io.completed && i in s.io.reqs
    ensures s.io.reqs[i].OpenClose? || s.io.reqs[i].Cleanup? ==> s.io.completed[i] == Completion(Success, 0)
    ensures s.io.reqs[i].Foreign? ==> s.io.completed[i] == Completion(InvalidRequest, 0)
  {
    AnswersHold(c, s) by { hide *; }
    hide Reachable, RefusalInv;
  }

  /** A request told that its buffer is too small is told the size of an event that was refused to it. */
  lemma TooSmallNamesSize(c: Config, s: State, i: Irp)
    requires Reachable(c, s) && i in s.io.completed && s.io.completed[i].status == BufferTooSmall
    ensures exists b :: b in s.at.buf && s.at.buf[b] == Refused(i) && b in s.rec.built && |s.rec.built[b]| == s.io.completed[i].info
  {
    AnswersHold(c, s) by { hide *; }
    hide Reachable, RepliesInv;
    var b :| RefusedTo(s, b, i, s.io.completed[i].info);
    assert b in s.at.buf && s.at.buf[b] == Refused(i);
  }
}
