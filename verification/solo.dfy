/** Uninterrupted runs of one thread through its routine. */
module Solo {
  import opened Wire
  import opened Protocol
  import opened Progress

  /** Thread `t` alone takes every step, and stays inside its routine until the end of the path. A finished
      event is submitted at once. */
  ghost predicate SoloPath(c: Config, t: Tid, states: seq<State>, steps: seq<Step>) {
    && IsPath(c, states, steps)
    && forall i :: 0 <= i < |steps| ==> steps[i].t == t && InRoutine(states[i], t, steps[i])
  }

  ghost predicate InRoutine(s: State, t: Tid, a: Step) {
    t in s.pcs && Running(s.pcs[t]) && (s.pcs[t].Filling? ==> a == Submit(t, SubmitLock))
  }

  /** Thread `t`, alone, can get from `s` to `s'`. */
  ghost predicate Path(c: Config, s: State, t: Tid, s': State) {
    exists states: seq<State>, steps: seq<Step> ::
      SoloPath(c, t, states, steps) && states[0] == s && states[|steps|] == s'
  }

  lemma NoStep(c: Config, s: State, t: Tid)
    ensures Path(c, s, t, s)
  {
    assert SoloPath(c, t, [s], []) && [s][0] == s;
  }

  /** One more step of a solo path. */
  lemma Onward(c: Config, s0: State, t: Tid, s: State, a: Step) returns (s': State)
    requires Path(c, s0, t, s) && a.t == t && Enabled(c, s, a) && t in s.pcs && Running(s.pcs[t])
    requires s.pcs[t].Filling? ==> a == Submit(t, SubmitLock)
    ensures Path(c, s0, t, s') && s' == Do(c, s, a)
  {
    hide Enabled, Do;
    assert InRoutine(s, t, a);
    hide InRoutine;
    s' := Do(c, s, a);
    var states: seq<State>, steps: seq<Step> :| SoloPath(c, t, states, steps) && states[0] == s0 && states[|steps|] == s;
    var more := states + [s'];
    assert SoloPath(c, t, more, steps + [a]) && more[0] == s0 && more[|steps + [a]|] == s';
  }

  // ---------------------------------------------------------------- a solo path has no choice

  /** Points from which the code prescribes one next step. */
  predicate Prescribed(pc: Pc) { Running(pc) && !pc.InCallback? && !pc.StampDrop? && !pc.StampTrunc? }

  lemma OneChoice(c: Config, s: State, t: Tid, a: Step)
    requires InRoutine(s, t, a) && Prescribed(s.pcs[t]) && Enabled(c, s, a) && a.t == t
    ensures a == Next(c, s, t)
  {
    hide NoneRunning;
  }

  lemma StaysPrescribed(c: Config, s: State, t: Tid, a: Step)
    requires InRoutine(s, t, a) && Prescribed(s.pcs[t]) && Enabled(c, s, a) && a.t == t
    ensures var s' := Do(c, s, a); t in s'.pcs && (Running(s'.pcs[t]) ==> Prescribed(s'.pcs[t]))
  {
    hide NoneRunning, CopyFaults, TouchFaults, EncodeHeader;
    match a
    case Spawn(_) =>
    case Build(_, _) =>
    case Submit(_, _) =>
    case Get(_, _) =>
    case Handle(_, _) =>
    case Teardown(_, _) =>
  }

  lemma {:induction false} SameStates(
    c: Config, t: Tid, st1: seq<State>, a1: seq<Step>, st2: seq<State>, a2: seq<Step>, k: nat)
    requires SoloPath(c, t, st1, a1) && SoloPath(c, t, st2, a2) && st1[0] == st2[0] && k <= |a1| && k <= |a2|
    requires t in st1[0].pcs && Prescribed(st1[0].pcs[t])
    ensures st1[k] == st2[k] && t in st1[k].pcs && (Running(st1[k].pcs[t]) ==> Prescribed(st1[k].pcs[t]))
  {
    hide Enabled, Do, InRoutine, Prescribed, Next;
    if k > 0 {
      SameStates(c, t, st1, a1, st2, a2, k - 1);
      assert InRoutine(st1[k - 1], t, a1[k - 1]) && InRoutine(st2[k - 1], t, a2[k - 1]);
      InsideRuns(st1[k - 1], t, a1[k - 1]);
      OneChoice(c, st1[k - 1], t, a1[k - 1]);
      OneChoice(c, st2[k - 1], t, a2[k - 1]);
      StaysPrescribed(c, st1[k - 1], t, a1[k - 1]);
    }
  }

  lemma InsideRuns(s: State, t: Tid, a: Step)
    requires InRoutine(s, t, a)
    ensures t in s.pcs && Running(s.pcs[t])
  {
  }

  /** The path ends where the routine returns. */
  ghost predicate Completes(c: Config, s: State, t: Tid, states: seq<State>, steps: seq<Step>) {
    && SoloPath(c, t, states, steps) && states[0] == s
    && t in states[|steps|].pcs && !Running(states[|steps|].pcs[t])
  }

  /** Alone, a routine has one outcome. */
  lemma OneOutcome(c: Config, s: State, t: Tid, st1: seq<State>, a1: seq<Step>, st2: seq<State>, a2: seq<Step>)
    requires Completes(c, s, t, st1, a1) && Completes(c, s, t, st2, a2) && t in s.pcs && Prescribed(s.pcs[t])
    ensures st1[|a1|] == st2[|a2|]
  {
    hide Enabled, Do, Prescribed;
    hide Running, InRoutine;
    var k := if |a1| < |a2| then |a1| else |a2|;
    if k < |a1| { RunsBefore(c, t, st1, a1, k); }
    if k < |a2| { RunsBefore(c, t, st2, a2, k); }
    SameStates(c, t, st1, a1, st2, a2, k);
  }

  lemma RunsBefore(c: Config, t: Tid, states: seq<State>, steps: seq<Step>, k: nat)
    requires SoloPath(c, t, states, steps) && k < |steps|
    ensures t in states[k].pcs && Running(states[k].pcs[t])
  {
    hide Enabled, Do, Running;
  }
}
