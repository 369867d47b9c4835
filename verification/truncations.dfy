/** The cuts that the protocol counts are the fields that emitters truncate. */
module Truncations {
  import opened Wire
  import opened Protocol
  import opened KernelStrings
  import opened Accounting
  import opened Production
  import opened Spelling
  import opened Theorems

  /** The step is a bounded copy that cuts its source. */
  predicate Cutting(a: Step) { a.Build? && a.build.BoundedCopy? && a.build.units > a.build.room }

  /** Cutting steps among the first `m`. */
  function CutsIn(steps: seq<Step>, m: nat): nat
    requires m <= |steps|
  {
    if m == 0 then 0 else CutsIn(steps, m - 1) + if Cutting(steps[m - 1]) then 1 else 0
  }

  lemma BuildCuts(s: State, t: Tid, a: BuildStep)
    requires t in s.pcs && BuildEnabled(s, t, a)
    ensures DoBuild(s, t, a).acc.cuts == s.acc.cuts + if Cutting(Build(t, a)) then 1 else 0
  {
    hide EncodeHeader;
  }

  lemma OthersDoNotCut(c: Config, s: State, a: Step)
    requires Enabled(c, s, a) && !a.Build?
    ensures Do(c, s, a).acc.cuts == s.acc.cuts
  {
    hide NoneRunning, CopyFaults, TouchFaults;
    match a
    case Spawn(_) =>
    case Submit(_, _) =>
    case Get(_, _) =>
    case Handle(_, _) =>
    case Teardown(_, _) =>
  }

  lemma StepCuts(c: Config, s: State, a: Step)
    requires Enabled(c, s, a)
    ensures Do(c, s, a).acc.cuts == s.acc.cuts + if Cutting(a) then 1 else 0
  {
    if a.Build? {
      hide BuildEnabled, DoBuild;
      BuildCuts(s, a.t, a.build);
    } else {
      hide Enabled, Do;
      OthersDoNotCut(c, s, a);
    }
  }

  lemma {:induction false} RunCuts(c: Config, states: seq<State>, steps: seq<Step>, m: nat)
    requires IsRun(c, states, steps) && m <= |steps|
    ensures states[m].acc.cuts == CutsIn(steps, m)
  {
    hide Enabled, Do;
    if m > 0 {
      RunCuts(c, states, steps, m - 1);
      StepCuts(c, states[m - 1], steps[m - 1]);
    }
  }

  // ---------------------------------------------------------------- cuts by call

  /** A callback activation: thread `t`, from its start at step `first` to its return or the present. */
  datatype Call = Call(t: Tid, first: nat, last: nat)

  ghost function CutSet(steps: seq<Step>, i: nat, k: nat, t: Tid): set<nat> {
    set p: nat | i <= p < k && p < |steps| && steps[p].t == t && Cutting(steps[p])
  }

  lemma CutSetGrows(steps: seq<Step>, i: nat, k: nat, t: Tid)
    requires i <= k < |steps|
    ensures var more: set<nat> := if steps[k].t == t && Cutting(steps[k]) then {k} else {};
            CutSet(steps, i, k + 1, t) == CutSet(steps, i, k, t) + more && k !in CutSet(steps, i, k, t)
  {
    hide Cutting;
  }

  lemma {:induction false} CutSetSize(steps: seq<Step>, i: nat, k: nat, t: Tid)
    requires k <= |steps|
    ensures |CutSet(steps, i, k, t)| == Truncated(CopiesOf(steps, i, k, t))
  {
    hide *;
    if k <= i {
      CutSetEmpty(steps, i, k, t);
    } else {
      CutSetSize(steps, i, k - 1, t);
      CutSetGrows(steps, i, k - 1, t);
      CopiesGrow(steps, i, k - 1, t);
    }
  }

  lemma CutSetEmpty(steps: seq<Step>, i: nat, k: nat, t: Tid)
    requires k <= |steps| && k <= i
    ensures |CutSet(steps, i, k, t)| == Truncated(CopiesOf(steps, i, k, t))
  {
    assert CutSet(steps, i, k, t) == {};
  }

  lemma CopiesGrow(steps: seq<Step>, i: nat, k: nat, t: Tid)
    requires i <= k < |steps|
    ensures Truncated(CopiesOf(steps, i, k + 1, t))
            == Truncated(CopiesOf(steps, i, k, t)) + if steps[k].t == t && Cutting(steps[k]) then 1 else 0
  {
    hide Truncated, Cutting, CopyOf;
    TruncatedConcat(CopiesOf(steps, i, k, t), CopyOf(steps[k], t));
    OneCopyCut(steps[k], t);
  }

  lemma OneCopyCut(a: Step, t: Tid)
    ensures Truncated(CopyOf(a, t)) == if a.t == t && Cutting(a) then 1 else 0
  {
    if CopyOf(a, t) != [] { assert CopyOf(a, t)[..0] == []; }
  }

  ghost function AllCuts(steps: seq<Step>, m: nat): set<nat>
    requires m <= |steps|
  {
    set p: nat | p < m && Cutting(steps[p])
  }

  lemma {:induction false} AllCutsSize(steps: seq<Step>, m: nat)
    requires m <= |steps|
    ensures |AllCuts(steps, m)| == CutsIn(steps, m)
  {
    if m == 0 {
      assert AllCuts(steps, 0) == {};
    } else {
      AllCutsSize(steps, m - 1);
      if Cutting(steps[m - 1]) {
        assert AllCuts(steps, m) == AllCuts(steps, m - 1) + {m - 1};
      } else {
        assert AllCuts(steps, m) == AllCuts(steps, m - 1);
      }
    }
  }

  ghost function CutsOf(steps: seq<Step>, call: Call): set<nat> { CutSet(steps, call.first, call.last, call.t) }

  // ---------------------------------------------------------------- disjoint unions

  ghost function UnionOf(sets: seq<set<nat>>, n: nat): set<nat>
    requires n <= |sets|
  {
    if n == 0 then {} else UnionOf(sets, n - 1) + sets[n - 1]
  }

  ghost function SizesOf(sets: seq<set<nat>>, n: nat): nat
    requires n <= |sets|
  {
    if n == 0 then 0 else SizesOf(sets, n - 1) + |sets[n - 1]|
  }

  lemma {:induction false} UnionMembers(sets: seq<set<nat>>, n: nat)
    requires n <= |sets|
    ensures forall p :: p in UnionOf(sets, n) <==> exists q :: 0 <= q < n && p in sets[q]
  {
    if n > 0 {
      UnionMembers(sets, n - 1);
      forall p | p in UnionOf(sets, n) ensures exists q :: 0 <= q < n && p in sets[q] {
        if p in UnionOf(sets, n - 1) {
          var q :| 0 <= q < n - 1 && p in sets[q];
        } else {
          assert p in sets[n - 1];
        }
      }
    }
  }

  lemma {:induction false} UnionSize(sets: seq<set<nat>>, n: nat)
    requires n <= |sets| && forall q, r :: 0 <= q < r < |sets| ==> sets[q] !! sets[r]
    ensures |UnionOf(sets, n)| == SizesOf(sets, n)
  {
    if n > 0 {
      UnionSize(sets, n - 1);
      UnionMembers(sets, n - 1);
      assert UnionOf(sets, n - 1) !! sets[n - 1];
    }
  }

  // ---------------------------------------------------------------- the activations of a run

  predicate Starts(a: Step) { a.Build? && a.build.StartCallback? }

  ghost predicate IdleAt(s: State, t: Tid) { t in s.pcs && s.pcs[t].Idle? }

  /** The first state from `q` on, and up to `m`, in which thread `t` is idle; else `m`. */
  ghost function EndOf(states: seq<State>, t: Tid, q: nat, m: nat): (r: nat)
    requires q <= m < |states|
    ensures q <= r <= m
    ensures forall x :: q <= x < r ==> !IdleAt(states[x], t)
    ensures r == m || IdleAt(states[r], t)
    decreases m - q
  {
    if q == m || IdleAt(states[q], t) then q else EndOf(states, t, q + 1, m)
  }

  /** The activations started among the first `n` steps, as they stand in state `m`. */
  ghost function Activations(states: seq<State>, steps: seq<Step>, n: nat, m: nat): (calls: seq<Call>)
    requires n <= m <= |steps| && |states| == |steps| + 1
  {
    if n == 0 then []
    else Activations(states, steps, n - 1, m)
         + if Starts(steps[n - 1]) then [Call(steps[n - 1].t, n - 1, EndOf(states, steps[n - 1].t, n, m))] else []
  }

  /** A call of the list: it starts at a step, in order, and ends as computed. */
  ghost predicate IsCall(states: seq<State>, steps: seq<Step>, m: nat, call: Call)
    requires m <= |steps| && |states| == |steps| + 1
  {
    && call.first < m && Starts(steps[call.first]) && steps[call.first].t == call.t
    && call.last == EndOf(states, call.t, call.first + 1, m)
  }

  ghost predicate AreCalls(states: seq<State>, steps: seq<Step>, n: nat, m: nat, calls: seq<Call>)
    requires m <= |steps| && |states| == |steps| + 1
  {
    && (forall q :: 0 <= q < |calls| ==> IsCall(states, steps, m, calls[q]) && calls[q].first < n)
    && (forall q, r :: 0 <= q < r < |calls| ==> calls[q].first < calls[r].first)
  }

  lemma {:induction false} CallsListed(states: seq<State>, steps: seq<Step>, n: nat, m: nat)
    requires n <= m <= |steps| && |states| == |steps| + 1
    ensures AreCalls(states, steps, n, m, Activations(states, steps, n, m))
  {
    if n > 0 {
      CallsListed(states, steps, n - 1, m);
      var calls, a := Activations(states, steps, n - 1, m), steps[n - 1];
      if Starts(a) {
        OneMoreCall(states, steps, n - 1, m, calls, Call(a.t, n - 1, EndOf(states, a.t, n, m)));
      } else {
        OneMoreStep(states, steps, n - 1, m, calls);
        assert calls + [] == calls;
      }
    }
  }

  lemma OneMoreCall(states: seq<State>, steps: seq<Step>, n: nat, m: nat, calls: seq<Call>, call: Call)
    requires m <= |steps| && |states| == |steps| + 1 && AreCalls(states, steps, n, m, calls)
    requires IsCall(states, steps, m, call) && call.first == n
    ensures AreCalls(states, steps, n + 1, m, calls + [call])
  {
    hide IsCall;
  }

  lemma OneMoreStep(states: seq<State>, steps: seq<Step>, n: nat, m: nat, calls: seq<Call>)
    requires m <= |steps| && |states| == |steps| + 1 && AreCalls(states, steps, n, m, calls)
    ensures AreCalls(states, steps, n + 1, m, calls)
  {
    hide IsCall;
  }

  lemma CallAt(states: seq<State>, steps: seq<Step>, n: nat, m: nat, calls: seq<Call>, q: nat)
    requires m <= |steps| && |states| == |steps| + 1 && AreCalls(states, steps, n, m, calls) && q < |calls|
    ensures IsCall(states, steps, m, calls[q]) && forall r :: q < r < |calls| ==> calls[q].first < calls[r].first
  {
    hide IsCall;
  }

  lemma {:induction false} StartListed(states: seq<State>, steps: seq<Step>, n: nat, m: nat, p: nat)
    requires p < n <= m <= |steps| && |states| == |steps| + 1 && Starts(steps[p])
    ensures exists q :: 0 <= q < |Activations(states, steps, n, m)|
                        && Activations(states, steps, n, m)[q] == Call(steps[p].t, p, EndOf(states, steps[p].t, p + 1, m))
  {
    hide EndOf, Starts;
    var calls := Activations(states, steps, n, m);
    if p == n - 1 {
      assert calls[|calls| - 1] == Call(steps[p].t, p, EndOf(states, steps[p].t, p + 1, m));
    } else {
      StartListed(states, steps, n - 1, m, p);
      var q :| 0 <= q < |Activations(states, steps, n - 1, m)|
               && Activations(states, steps, n - 1, m)[q] == Call(steps[p].t, p, EndOf(states, steps[p].t, p + 1, m));
      assert calls[q] == Activations(states, steps, n - 1, m)[q];
    }
  }

  // ---------------------------------------------------------------- every cut is in one activation

  /** Points of a callback before it submits its event. */
  predicate Building(pc: Pc) { pc.InCallback? || pc.CountOom? || pc.StampDrop? || pc.StampTrunc? || pc.Filling? }

  ghost predicate BuildingAt(s: State, t: Tid) { t in s.pcs && Building(s.pcs[t]) }

  lemma BuildOrigin(s: State, u: Tid, a: BuildStep, t: Tid)
    requires u in s.pcs && BuildEnabled(s, u, a) && BuildingAt(DoBuild(s, u, a), t)
    ensures BuildingAt(s, t) || (a.StartCallback? && u == t)
  {
    hide EncodeHeader;
  }

  lemma OthersDoNotBuild(c: Config, s: State, a: Step, t: Tid)
    requires Enabled(c, s, a) && !a.Build? && BuildingAt(Do(c, s, a), t)
    ensures BuildingAt(s, t)
  {
    hide Enabled, Do, BuildingAt;
    if a.Handle? || a.Teardown? { RepliersDoNotBuild(c, s, a, t); } else { QueueStepsDoNotBuild(c, s, a, t); }
  }

  lemma RepliersDoNotBuild(c: Config, s: State, a: Step, t: Tid)
    requires Enabled(c, s, a) && (a.Handle? || a.Teardown?) && BuildingAt(Do(c, s, a), t)
    ensures BuildingAt(s, t)
  {
    hide NoneRunning;
    match a
    case Handle(_, _) =>
    case Teardown(_, _) =>
  }

  lemma QueueStepsDoNotBuild(c: Config, s: State, a: Step, t: Tid)
    requires Enabled(c, s, a) && (a.Spawn? || a.Submit? || a.Get?) && BuildingAt(Do(c, s, a), t)
    ensures BuildingAt(s, t)
  {
    hide CopyFaults, TouchFaults;
    match a
    case Spawn(_) =>
    case Submit(_, _) =>
    case Get(_, _) =>
  }

  lemma StepOrigin(c: Config, s: State, a: Step, t: Tid)
    requires Enabled(c, s, a) && BuildingAt(Do(c, s, a), t)
    ensures BuildingAt(s, t) || (Starts(a) && a.t == t)
  {
    if a.Build? {
      hide BuildEnabled, DoBuild, BuildingAt;
      BuildOrigin(s, a.t, a.build, t);
    } else {
      hide Enabled, Do, BuildingAt;
      OthersDoNotBuild(c, s, a, t);
    }
  }

  lemma NotIdle(s: State, t: Tid)
    requires BuildingAt(s, t)
    ensures !IdleAt(s, t)
  {
  }

  /** A thread that is building has started its callback and not been idle since. */
  lemma {:induction false} InActivation(c: Config, states: seq<State>, steps: seq<Step>, r: nat, t: Tid) returns (p: nat)
    requires IsRun(c, states, steps) && r <= |steps| && BuildingAt(states[r], t)
    ensures p < r && Starts(steps[p]) && steps[p].t == t && forall x :: p < x <= r ==> !IdleAt(states[x], t)
  {
    hide Enabled, Do, BuildingAt, Starts, IdleAt;
    NotIdle(states[r], t);
    if r == 0 {
      NoneBuilding(states[0], t);
    } else {
      StepOrigin(c, states[r - 1], steps[r - 1], t);
      if BuildingAt(states[r - 1], t) {
        p := InActivation(c, states, steps, r - 1, t);
      } else {
        p := r - 1;
      }
    }
  }

  lemma NoneBuilding(s: State, t: Tid)
    requires Init(s)
    ensures !BuildingAt(s, t)
  {
  }

  lemma CutterBuilds(c: Config, s: State, a: Step)
    requires Enabled(c, s, a) && Cutting(a)
    ensures BuildingAt(s, a.t)
  {
  }

  lemma StarterIdle(c: Config, s: State, a: Step)
    requires Enabled(c, s, a) && Starts(a)
    ensures IdleAt(s, a.t)
  {
  }

  lemma EndBeyond(states: seq<State>, t: Tid, q: nat, m: nat, r: nat)
    requires q <= m < |states| && r < m && forall x :: q <= x <= r ==> !IdleAt(states[x], t)
    ensures r < EndOf(states, t, q, m) || r < q
  {
    hide IdleAt;
    var e := EndOf(states, t, q, m);
    assert e < m ==> IdleAt(states[e], t);
  }

  /** The calls account for every cutting step. */
  lemma Exhaust(c: Config, states: seq<State>, steps: seq<Step>, m: nat, r: nat)
    requires IsRun(c, states, steps) && m <= |steps| && r in AllCuts(steps, m)
    ensures var calls := Activations(states, steps, m, m); exists q :: 0 <= q < |calls| && r in CutsOf(steps, calls[q])
  {
    var t := steps[r].t;
    assert Enabled(c, states[r], steps[r]) by { hide Enabled, Do, Init; }
    CutterBuilds(c, states[r], steps[r]) by { hide Enabled; }
    var p := InActivation(c, states, steps, r, t) by { hide *; }
    hide Enabled, Do, Init, IdleAt, EndOf, Activations, Cutting;
    EndBeyond(states, t, p + 1, m, r);
    StartListed(states, steps, m, m, p);
    var calls := Activations(states, steps, m, m);
    var q :| 0 <= q < |calls| && calls[q] == Call(t, p, EndOf(states, t, p + 1, m));
    assert r in CutsOf(steps, calls[q]);
  }

  /** Two activations share no step of one thread. */
  lemma Apart(c: Config, states: seq<State>, steps: seq<Step>, m: nat, a: Call, b: Call)
    requires IsRun(c, states, steps) && m <= |steps| && IsCall(states, steps, m, a) && IsCall(states, steps, m, b) && a.first < b.first
    ensures CutsOf(steps, a) !! CutsOf(steps, b)
  {
    assert Enabled(c, states[b.first], steps[b.first]) by { hide Enabled, Do, Init; }
    StarterIdle(c, states[b.first], steps[b.first]) by { hide Enabled; }
    hide Enabled, Do, Init, Cutting, Starts, IdleAt;
    assert a.t == b.t ==> a.last <= b.first;
  }

  // ---------------------------------------------------------------- the sum over all activations

  ghost function CutSets(steps: seq<Step>, calls: seq<Call>): (sets: seq<set<nat>>)
    ensures |sets| == |calls|
  {
    seq(|calls|, q requires 0 <= q < |calls| => CutsOf(steps, calls[q]))
  }

  /** Truncating copies of the activations, one after the other. */
  ghost function TotalCut(steps: seq<Step>, calls: seq<Call>, n: nat): nat
    requires n <= |calls| && forall q :: 0 <= q < |calls| ==> calls[q].last <= |steps|
  {
    if n == 0 then 0
    else TotalCut(steps, calls, n - 1) + Truncated(CopiesOf(steps, calls[n - 1].first, calls[n - 1].last, calls[n - 1].t))
  }

  lemma {:induction false} SizesAreCuts(steps: seq<Step>, calls: seq<Call>, n: nat)
    requires n <= |calls| && forall q :: 0 <= q < |calls| ==> calls[q].last <= |steps|
    ensures SizesOf(CutSets(steps, calls), n) == TotalCut(steps, calls, n)
  {
    hide CutSet, Truncated, CopiesOf;
    if n > 0 {
      SizesAreCuts(steps, calls, n - 1);
      CutSetSize(steps, calls[n - 1].first, calls[n - 1].last, calls[n - 1].t);
    }
  }

  lemma WithinAll(states: seq<State>, steps: seq<Step>, m: nat, call: Call)
    requires m <= |steps| && |states| == |steps| + 1 && IsCall(states, steps, m, call)
    ensures CutsOf(steps, call) <= AllCuts(steps, m) && call.last <= m
  {
    hide Cutting, Starts, IdleAt;
  }

  lemma UnionIsAll(c: Config, states: seq<State>, steps: seq<Step>, m: nat)
    requires IsRun(c, states, steps) && m <= |steps|
    ensures UnionOf(CutSets(steps, Activations(states, steps, m, m)), |Activations(states, steps, m, m)|) == AllCuts(steps, m)
  {
    hide Enabled, Do, Init, UnionOf, CutsOf, AllCuts, IsCall, AreCalls, Activations;
    var calls := Activations(states, steps, m, m);
    var sets := CutSets(steps, calls);
    CallsListed(states, steps, m, m);
    UnionMembers(sets, |calls|);
    forall r | r in UnionOf(sets, |calls|) ensures r in AllCuts(steps, m) {
      var q :| 0 <= q < |calls| && r in sets[q];
      CallAt(states, steps, m, m, calls, q);
      WithinAll(states, steps, m, calls[q]);
    }
    forall r | r in AllCuts(steps, m) ensures r in UnionOf(sets, |calls|) {
      Exhaust(c, states, steps, m, r);
      var q :| 0 <= q < |calls| && r in CutsOf(steps, calls[q]);
      assert r in sets[q];
    }
  }

  lemma SetsApart(c: Config, states: seq<State>, steps: seq<Step>, m: nat)
    requires IsRun(c, states, steps) && m <= |steps|
    ensures var sets := CutSets(steps, Activations(states, steps, m, m)); forall q, r :: 0 <= q < r < |sets| ==> sets[q] !! sets[r]
    ensures forall q :: 0 <= q < |Activations(states, steps, m, m)| ==> Activations(states, steps, m, m)[q].last <= m
  {
    hide Enabled, Do, Init, CutsOf, AllCuts, IsCall, AreCalls, Activations;
    var calls := Activations(states, steps, m, m);
    CallsListed(states, steps, m, m);
    forall q, r | 0 <= q < r < |calls| ensures CutsOf(steps, calls[q]) !! CutsOf(steps, calls[r]) {
      CallAt(states, steps, m, m, calls, q);
      CallAt(states, steps, m, m, calls, r);
      Apart(c, states, steps, m, calls[q], calls[r]);
    }
    forall q | 0 <= q < |calls| ensures calls[q].last <= m {
      CallAt(states, steps, m, m, calls, q);
      WithinAll(states, steps, m, calls[q]);
    }
  }

  /** In every run the cuts counted are the truncating copies of its callback activations, each copy in one. */
  lemma CutsByActivation(c: Config, states: seq<State>, steps: seq<Step>, m: nat)
    requires IsRun(c, states, steps) && m <= |steps|
    ensures var calls := Activations(states, steps, m, m);
            && (forall q :: 0 <= q < |calls| ==> calls[q].last <= m)
            && states[m].acc.cuts == TotalCut(steps, calls, |calls|)
  {
    hide Enabled, Do, Init, AllCuts, CutsIn, TotalCut, UnionOf, SizesOf, CutSets, Activations;
    var calls := Activations(states, steps, m, m);
    RunCuts(c, states, steps, m);
    AllCutsSize(steps, m);
    UnionIsAll(c, states, steps, m);
    SetsApart(c, states, steps, m);
    UnionSize(CutSets(steps, calls), |calls|);
    SizesAreCuts(steps, calls, |calls|);
  }

  // ---------------------------------------------------------------- activations that follow their emitters

  predicate Reports(e: Emission, x: Class) {
    match x
    case Process => e.Exits? || e.Creates? || e.Ignored?
    case Image => e.Loads? || e.Ignored?
    case Registry => e.SetsValue? || e.DeletesValue? || e.KeyOnly? || e.CreatesKey? || e.Ignored?
    case Thread => e.OnThread? || e.Ignored?
    case Object => e.OnHandle? || e.Ignored?
  }

  /** Whether the activation got a block for its event. */
  ghost predicate Built(steps: seq<Step>, call: Call) {
    exists r :: call.first <= r < call.last && r < |steps| && steps[r].t == call.t && steps[r].Build? && steps[r].build.AllocOk?
  }

  ghost predicate Returned(states: seq<State>, call: Call) { call.last < |states| && IdleAt(states[call.last], call.t) }

  /** The activation is of the class of its emitter and makes the emitter's copies: all of them when it has
      returned, the first ones while it is running. */
  ghost predicate Performs(states: seq<State>, steps: seq<Step>, call: Call, e: Emission) {
    && call.first < |steps| && call.last <= |steps| && Starts(steps[call.first]) && Reports(e, steps[call.first].build.source)
    && var made := CopiesOf(steps, call.first, call.last, call.t);
    && (Returned(states, call) ==> made == e.Copies(Built(steps, call)))
    && made <= e.Copies(true)
  }

  /** Fields cut by an activation so far: all that its emitter cuts, once it has returned. */
  ghost function CutBy(states: seq<State>, steps: seq<Step>, call: Call, e: Emission): nat
    requires Performs(states, steps, call, e)
  {
    if Returned(states, call) then e.Cuts(Built(steps, call)) else Truncated(CopiesOf(steps, call.first, call.last, call.t))
  }

  lemma CutByCopies(states: seq<State>, steps: seq<Step>, call: Call, e: Emission)
    requires Performs(states, steps, call, e)
    ensures CutBy(states, steps, call, e) == Truncated(CopiesOf(steps, call.first, call.last, call.t)) <= e.Cuts(true)
  {
    hide Truncated, CopiesOf, Emission.Copies, Emission.Cuts, Built, IdleAt, Reports;
    CopiesCut(e, true);
    CopiesCut(e, Built(steps, call));
    PrefixCut(CopiesOf(steps, call.first, call.last, call.t), e.Copies(true));
  }

  /** Every activation of the run performs what the script says. */
  ghost predicate Plays(states: seq<State>, steps: seq<Step>, calls: seq<Call>, script: seq<Emission>) {
    |script| == |calls| && forall q :: 0 <= q < |calls| ==> Performs(states, steps, calls[q], script[q])
  }

  ghost function FieldsCut(states: seq<State>, steps: seq<Step>, calls: seq<Call>, script: seq<Emission>, n: nat): nat
    requires Plays(states, steps, calls, script) && n <= |calls|
  {
    if n == 0 then 0
    else FieldsCut(states, steps, calls, script, n - 1) + CutBy(states, steps, calls[n - 1], script[n - 1])
  }

  lemma {:induction false} FieldsAreCuts(states: seq<State>, steps: seq<Step>, calls: seq<Call>, script: seq<Emission>, n: nat)
    requires Plays(states, steps, calls, script) && n <= |calls| && forall q :: 0 <= q < |calls| ==> calls[q].last <= |steps|
    ensures TotalCut(steps, calls, n) == FieldsCut(states, steps, calls, script, n)
  {
    hide Performs, CutBy, Truncated, CopiesOf;
    if n > 0 {
      FieldsAreCuts(states, steps, calls, script, n - 1);
      CutByCopies(states, steps, calls[n - 1], script[n - 1]);
    }
  }

  /** Truncation accounting, in terms of the emitters: if the callback activations of a run make the copies of
      their emitters, the truncation counter and all stamps add up, modulo 2^32, to the fields whose source
      did not fit: of an activation that has returned, all that its emitter cuts, given whether it got a
      block; of a running one, those cut so far. */
  lemma TruncatedFieldsCounted(c: Config, states: seq<State>, steps: seq<Step>, m: nat, script: seq<Emission>)
    requires IsRun(c, states, steps) && m <= |steps|
    requires Plays(states, steps, Activations(states, steps, m, m), script)
    ensures var calls := Activations(states, steps, m, m);
            var fields := FieldsCut(states, steps, calls, script, |calls|);
            && states[m].acc.cuts == fields
            && (states[m].sh.trunc + Total(states[m].acc.truncLog)) % 0x1_0000_0000 == fields % 0x1_0000_0000
  {
    CutsByActivation(c, states, steps, m) by { hide *; }
    hide Enabled, Do, Init, Plays, FieldsCut, TotalCut, Activations;
    var calls := Activations(states, steps, m, m);
    FieldsAreCuts(states, steps, calls, script, |calls|);
    RunReaches(c, states, steps, m);
    TruncAccounting(c, states[m]);
  }
}
