/** In which order the agent's requests complete. */
module Completions {
  import opened Wire
  import opened Protocol
  import opened Subsequences
  import opened Buffers
  import opened Irps
  import opened Fates
  import opened Requests
  import opened Delivery
  import opened Ordering
  import opened Invariant
  import opened Theorems
  import opened Runs

  /** A get-event request that is not answered yet. */
  ghost predicate Waiting(s: State, i: Irp) { IsGet(s, i) && i !in s.io.completed }

  ghost predicate OneOutstanding(s: State) {
    forall i, j :: Waiting(s, i) && Waiting(s, j) ==> i == j
  }

  /** The thread is bound to complete its request with an event, unless a popped one turns out too big. */
  predicate Flying(pc: Pc) {
    pc.Popped? || pc.Checking? || ((pc.Decided? || pc.Settle? || pc.Finish?) && pc.fits)
  }

  function Flown(pc: Pc): Buf
    requires Flying(pc)
  {
    if pc.Finish? then pc.gone.data else pc.ev.data
  }

  /** The event in flight was the last to be handed over; the received ones come before it. */
  ghost predicate LastCommitted(s: State, b: Buf) {
    var n := |s.order.committed|;
    n > 0 && s.order.committed[n - 1] == b && Subsequence(s.rec.received, s.order.committed[..n - 1])
  }

  ghost predicate FlightInv(s: State) {
    && Subsequence(s.rec.received, s.order.committed)
    && (forall t :: t in s.pcs && Flying(s.pcs[t]) ==> LastCommitted(s, Flown(s.pcs[t])))
  }

  /** With one request outstanding, a thread that serves one is the only one that can have an event in
      flight. */
  lemma AloneInFlight(s: State, t: Tid)
    requires IrpInv(s) && RequestInv(s) && OneOutstanding(s) && t in s.pcs && ForGet(s.pcs[t])
    ensures forall u :: u in s.pcs && u != t ==> !Flying(s.pcs[u])
  {
    forall u | u in s.pcs && u != t ensures !Flying(s.pcs[u]) {
      if Flying(s.pcs[u]) {
        Serves(s, t);
        Serves(s, u);
        TwoOwners(s, t, u);
      }
    }
  }

  lemma Serves(s: State, t: Tid)
    requires IrpInv(s) && RequestInv(s) && t in s.pcs && ForGet(s.pcs[t])
    ensures MainIrp(s.pcs[t]) == Some(s.pcs[t].irp) && Waiting(s, s.pcs[t].irp)
  {
    OwnIrp(s, t) by { hide IrpInv, RequestInv; }
    RequestFacts(s, t) by { hide IrpInv, RequestInv; }
    hide IrpInv, RequestInv;
  }

  lemma TwoOwners(s: State, t: Tid, u: Tid)
    requires IrpInv(s) && t in s.pcs && u in s.pcs && t != u && MainIrp(s.pcs[t]).Some? && MainIrp(s.pcs[u]).Some?
    ensures MainIrp(s.pcs[t]) != MainIrp(s.pcs[u])
  {
    assert IrpOf(s, Main(t)) == MainIrp(s.pcs[t]) && IrpOf(s, Main(u)) == MainIrp(s.pcs[u]);
    hide MainIrp;
  }

  lemma FlightKept(s: State, s': State, t: Tid)
    requires FlightInv(s) && Moves(s, s', t) && s'.order.committed == s.order.committed && s'.rec.received == s.rec.received
    requires Flying(s'.pcs[t]) ==> t in s.pcs && Flying(s.pcs[t]) && Flown(s.pcs[t]) == Flown(s'.pcs[t])
    ensures FlightInv(s')
  {
    hide Subsequence, Flying;
    assert forall b :: LastCommitted(s', b) <==> LastCommitted(s, b);
  }

  lemma TakesOff(s: State, s': State, t: Tid)
    requires FlightInv(s) && Moves(s, s', t) && (forall u :: u in s.pcs && u != t ==> !Flying(s.pcs[u]))
    requires Flying(s'.pcs[t]) && s'.rec.received == s.rec.received
    requires s'.order.committed == s.order.committed + [Flown(s'.pcs[t])]
    ensures FlightInv(s')
  {
    hide Subsequence, Flying;
    Longer(s.rec.received, s.order.committed, [Flown(s'.pcs[t])]);
    assert s'.order.committed[..|s'.order.committed| - 1] == s.order.committed;
  }

  lemma Lands(s: State, s': State, t: Tid)
    requires FlightInv(s) && Moves(s, s', t) && t in s.pcs && Flying(s.pcs[t]) && !Flying(s'.pcs[t])
    requires (forall u :: u in s.pcs && u != t ==> !Flying(s.pcs[u]))
    requires s'.order.committed == s.order.committed && s'.rec.received == s.rec.received + [Flown(s.pcs[t])]
    ensures FlightInv(s')
  {
    hide Subsequence, Flying;
    var n := |s.order.committed|;
    assert LastCommitted(s, Flown(s.pcs[t]));
    Extend(s.rec.received, s.order.committed[..n - 1], Flown(s.pcs[t]));
    assert s.order.committed == s.order.committed[..n - 1] + [s.order.committed[n - 1]];
  }

  lemma BuildKeepsFlight(s: State, t: Tid, a: BuildStep)
    requires FlightInv(s) && t in s.pcs && BuildEnabled(s, t, a)
    ensures FlightInv(DoBuild(s, t, a))
  {
    hide FlightInv, EncodeHeader;
    FlightKept(s, DoBuild(s, t, a), t);
  }

  lemma SubmitKeepsFlight(c: Config, s: State, t: Tid, a: SubmitStep)
    requires FlightInv(s) && IrpInv(s) && RequestInv(s) && OneOutstanding(s) && t in s.pcs && SubmitEnabled(c, s, t, a)
    ensures FlightInv(DoSubmit(c, s, t, a))
  {
    hide FlightInv, IrpInv, RequestInv, OneOutstanding, CopyFaults, TouchFaults;
    var s' := DoSubmit(c, s, t, a);
    if a.Decide? && s'.pcs[t].fits {
      AloneInFlight(s, t);
      TakesOff(s, s', t);
    } else {
      FlightKept(s, s', t);
    }
  }

  lemma GetKeepsFlight(c: Config, s: State, t: Tid, a: GetStep)
    requires FlightInv(s) && IrpInv(s) && RequestInv(s) && OneOutstanding(s) && t in s.pcs && GetEnabled(s, t, a)
    ensures FlightInv(DoGet(c, s, t, a))
  {
    hide FlightInv, IrpInv, RequestInv, OneOutstanding, CopyFaults;
    var s' := DoGet(c, s, t, a);
    if a.Pop? {
      AloneInFlight(s, t);
      TakesOff(s, s', t);
    } else {
      FlightKept(s, s', t);
    }
  }

  lemma IrpKeepsFlight(s: State, t: Tid, a: IrpStep)
    requires FlightInv(s) && IrpInv(s) && RequestInv(s) && OneOutstanding(s) && t in s.pcs && IrpEnabled(s, t, a)
    ensures FlightInv(DoIrp(s, t, a))
  {
    hide FlightInv, IrpInv, RequestInv, OneOutstanding;
    var s' := DoIrp(s, t, a);
    if a.DoFinish? && s.pcs[t].fits {
      AloneInFlight(s, t);
      Lands(s, s', t);
    } else {
      FlightKept(s, s', t);
    }
  }

  lemma UnloadKeepsFlight(s: State, t: Tid, a: UnloadStep)
    requires FlightInv(s) && t in s.pcs && UnloadEnabled(s, t, a)
    ensures FlightInv(DoUnload(s, t, a))
  {
    hide FlightInv, NoneRunning;
    FlightKept(s, DoUnload(s, t, a), t);
  }

  lemma StepKeepsFlight(c: Config, s: State, a: Step)
    requires FlightInv(s) && IrpInv(s) && RequestInv(s) && OneOutstanding(s) && Enabled(c, s, a)
    ensures FlightInv(Do(c, s, a))
  {
    hide FlightInv, IrpInv, RequestInv, OneOutstanding, BuildEnabled, DoBuild, SubmitEnabled, DoSubmit, GetEnabled, DoGet,
         IrpEnabled, DoIrp, UnloadEnabled, DoUnload;
    match a
    case Spawn(t) => FlightKept(s, Do(c, s, a), t);
    case Build(t, b) => BuildKeepsFlight(s, t, b);
    case Submit(t, b) => SubmitKeepsFlight(c, s, t, b);
    case Get(t, g) => GetKeepsFlight(c, s, t, g);
    case Handle(t, h) => IrpKeepsFlight(s, t, h);
    case Teardown(t, u) => UnloadKeepsFlight(s, t, u);
  }

  lemma InitFlight(s: State)
    requires Init(s)
    ensures FlightInv(s)
  {
    Reflexive<Buf>([]);
  }

  lemma ServicePart(c: Config, s: State)
    requires Inv(c, s)
    ensures IrpInv(s) && RequestInv(s)
  {
    hide IrpInv, RequestInv;
  }

  lemma {:induction false} RunKeepsFlight(c: Config, states: seq<State>, steps: seq<Step>, m: nat)
    requires IsRun(c, states, steps) && m <= |steps| && forall k :: 0 <= k < m ==> OneOutstanding(states[k])
    ensures FlightInv(states[m])
  {
    hide Enabled, Do, Init, Inv, FlightInv, OneOutstanding;
    if m == 0 {
      InitFlight(states[0]);
    } else {
      RunKeepsFlight(c, states, steps, m - 1);
      RunHolds(c, states, steps, m - 1);
      ServicePart(c, states[m - 1]);
      StepKeepsFlight(c, states[m - 1], steps[m - 1]);
    }
  }

  /** Completion order: a client that keeps one get-event request outstanding receives its events, in the
      order in which its requests complete, as a subsequence of the submissions in lock order, none
      twice. */
  lemma CompletionOrder(c: Config, states: seq<State>, steps: seq<Step>, m: nat)
    requires IsRun(c, states, steps) && m <= |steps| && forall k :: 0 <= k < m ==> OneOutstanding(states[k])
    ensures Subsequence(states[m].rec.received, states[m].order.submitted) && Distinct(states[m].rec.received)
  {
    var s := states[m];
    assert Reachable(c, s) by { RunReaches(c, states, steps, m); }
    RunKeepsFlight(c, states, steps, m);
    hide IsRun, Reachable, Subsequence, Distinct;
    DeliveryInOrder(c, s);
    Prefix(s.order.committed, Datas(s.sh.queue), s.order.submitted);
    Transitive(s.rec.received, s.order.committed, s.order.submitted);
    StagesHold(c, s);
    SubsequenceDistinct(s.rec.received, s.order.submitted);
  }

  lemma StagesHold(c: Config, s: State)
    requires Reachable(c, s)
    ensures Distinct(s.order.submitted)
  {
    hide *;
    Families(c, s);
    SubmittedDistinct(s);
  }

  // ---------------------------------------------------------------- what `received` lists

  /** The received events are those of the successful get-event requests. */
  ghost predicate ListsServed(s: State) {
    && (forall i :: i in s.rec.served ==> i in s.io.completed && IsGet(s, i))
    && (forall b :: b in s.rec.received <==> b in s.rec.served.Values)
  }

  lemma ValuesGrow(f: map<Irp, Buf>, i: Irp, b: Buf)
    requires i !in f
    ensures f[i := b].Values == f.Values + {b}
  {
    forall x | x in f.Values ensures x in f[i := b].Values {
      var j :| j in f && f[j] == x;
      assert f[i := b][j] == x;
    }
    assert f[i := b][i] == b;
  }

  lemma SameServed(s: State, s': State)
    requires ListsServed(s) && s'.rec.received == s.rec.received && s'.rec.served == s.rec.served
    requires forall i :: i in s.io.completed ==> i in s'.io.completed
    requires forall i :: IsGet(s, i) ==> IsGet(s', i)
    ensures ListsServed(s')
  {
  }

  lemma OneMoreServed(s: State, s': State, i: Irp, b: Buf)
    requires ListsServed(s) && i !in s.io.completed && s'.rec.served == s.rec.served[i := b]
    requires s'.rec.received == s.rec.received + [b]
    requires forall j :: j in s.io.completed || j == i ==> j in s'.io.completed
    requires s'.io.reqs == s.io.reqs && IsGet(s, i)
    ensures ListsServed(s')
  {
    ValuesGrow(s.rec.served, i, b);
  }

  lemma IrpKeepsServed(s: State, t: Tid, a: IrpStep)
    requires IrpInv(s) && RequestInv(s) && ListsServed(s) && t in s.pcs && IrpEnabled(s, t, a)
    ensures ListsServed(DoIrp(s, t, a))
  {
    hide IrpInv, RequestInv, ListsServed;
    var s' := DoIrp(s, t, a);
    if a.DoFinish? && s.pcs[t].fits {
      OwnIrp(s, t);
      RequestFacts(s, t);
      OneMoreServed(s, s', s.pcs[t].irp, s.pcs[t].gone.data);
    } else {
      SameServed(s, s');
    }
  }

  lemma UnloadKeepsServed(s: State, t: Tid, a: UnloadStep)
    requires ListsServed(s) && t in s.pcs && UnloadEnabled(s, t, a)
    ensures ListsServed(DoUnload(s, t, a))
  {
    hide ListsServed, NoneRunning;
    SameServed(s, DoUnload(s, t, a));
  }

  lemma OthersServeNone(c: Config, s: State, a: Step)
    requires Enabled(c, s, a) && !a.Handle? && !a.Teardown?
    ensures Do(c, s, a).rec.received == s.rec.received && Do(c, s, a).rec.served == s.rec.served
    ensures Do(c, s, a).io.reqs == s.io.reqs
  {
    hide CopyFaults, TouchFaults, EncodeHeader;
    match a
    case Spawn(_) =>
    case Build(_, _) =>
    case Submit(_, _) =>
    case Get(_, _) =>
  }

  lemma StepKeepsServed(c: Config, s: State, a: Step)
    requires IrpInv(s) && RequestInv(s) && ListsServed(s) && Enabled(c, s, a)
    ensures ListsServed(Do(c, s, a))
  {
    hide IrpInv, RequestInv, ListsServed, IrpEnabled, DoIrp, UnloadEnabled, DoUnload, BuildEnabled, DoBuild, SubmitEnabled, DoSubmit,
         GetEnabled, DoGet;
    match a
    case Handle(t, h) => IrpKeepsServed(s, t, h);
    case Teardown(t, u) => UnloadKeepsServed(s, t, u);
    case _ =>
      OthersServeNone(c, s, a);
      OthersKeepDone(c, s, a);
      SameServed(s, Do(c, s, a));
  }

  /** In every run the completion order lists exactly the events that successful requests carry. */
  lemma {:induction false} ReceivedAreServed(c: Config, states: seq<State>, steps: seq<Step>, m: nat)
    requires IsRun(c, states, steps) && m <= |steps|
    ensures ListsServed(states[m])
  {
    hide Enabled, Do, Inv, ListsServed;
    if m == 0 {
      NoneServed(states[0]);
    } else {
      ReceivedAreServed(c, states, steps, m - 1);
      RunHolds(c, states, steps, m - 1);
      ServicePart(c, states[m - 1]);
      StepKeepsServed(c, states[m - 1], steps[m - 1]);
    }
  }

  lemma ServedInReach(c: Config, s: State)
    requires Reachable(c, s)
    ensures ListsServed(s)
  {
    hide Enabled, Do, Init, ListsServed;
    var states: seq<State>, steps: seq<Step> :| IsRun(c, states, steps) && states[|steps|] == s;
    ReceivedAreServed(c, states, steps, |steps|);
  }

  lemma NoneServed(s: State)
    requires Init(s)
    ensures ListsServed(s)
  {
  }
}
