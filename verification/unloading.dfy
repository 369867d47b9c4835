/** From the registrations of `driver_entry` to the end of `driver_unload`: when unloading leaves nothing
    behind. */
module Unloading {
  import opened Wire
  import opened Protocol
  import opened Roles
  import opened Runs
  import opened Lifecycle

  // ---------------------------------------------------------------- what is recorded stays recorded

  lemma OthersKeepLoad(c: Config, s: State, a: Step)
    requires Enabled(c, s, a) && !a.Teardown?
    ensures var k, k' := s.kern, Do(c, s, a).kern; k'.registered == k.registered && k'.recorded == k.recorded
  {
    hide CopyFaults, TouchFaults, EncodeHeader;
    match a
    case Spawn(_) =>
    case Build(_, _) =>
    case Submit(_, _) =>
    case Get(_, _) =>
    case Handle(_, _) =>
  }

  lemma UnloadKeepsTracked(s: State, t: Tid, a: UnloadStep)
    requires t in s.pcs && UnloadEnabled(s, t, a)
    ensures DoUnload(s, t, a).kern.recorded == s.kern.recorded && (Tracked(DoUnload(s, t, a)) <==> Tracked(s))
  {
    hide NoneRunning;
  }

  lemma StepKeepsTracked(c: Config, s: State, a: Step)
    requires Enabled(c, s, a)
    ensures Do(c, s, a).kern.recorded == s.kern.recorded && (Tracked(Do(c, s, a)) <==> Tracked(s))
  {
    if a.Teardown? {
      hide UnloadEnabled, DoUnload;
      UnloadKeepsTracked(s, a.t, a.teardown);
    } else {
      hide Enabled, Do;
      OthersKeepLoad(c, s, a);
    }
  }

  lemma {:induction false} RunKeepsTracked(c: Config, states: seq<State>, steps: seq<Step>, i: nat)
    requires IsRun(c, states, steps) && i <= |steps|
    ensures Tracked(states[i]) <==> Tracked(states[0])
  {
    hide Enabled, Do, Init, Tracked;
    if i > 0 {
      RunKeepsTracked(c, states, steps, i - 1);
      StepKeepsTracked(c, states[i - 1], steps[i - 1]);
    }
  }

  // ---------------------------------------------------------------- the exact condition

  /** `driver_unload` has returned on thread `u`. */
  predicate HasUnloaded(s: State, u: Tid) { s.kern.unloader == Some(u) && u in s.pcs && s.pcs[u].Unloaded? }

  ghost predicate LeftClean(s: State, u: Tid) {
    && s.pool.mem == map[] && s.sh.queue == [] && s.sh.pending == None && s.kern.registered == {}
    && (forall t :: t in s.pcs && t != u ==> s.pcs[t].Idle?)
    && (forall i :: i in s.io.reqs ==> i in s.io.completed)
  }

  /** Every run of a driver loaded with `load` that has unloaded is clean. */
  ghost predicate AlwaysClean(c: Config, load: Kernel) {
    forall states: seq<State>, steps: seq<Step>, u: Tid ::
      IsRun(c, states, steps) && states[0].kern == load && HasUnloaded(states[|steps|], u) ==> LeftClean(states[|steps|], u)
  }

  lemma RecordedIsClean(c: Config, load: Kernel)
    requires load.registered <= load.recorded
    ensures AlwaysClean(c, load)
  {
    hide Enabled, Do, Init;
    forall states: seq<State>, steps: seq<Step>, u: Tid
      | IsRun(c, states, steps) && states[0].kern == load && HasUnloaded(states[|steps|], u)
      ensures LeftClean(states[|steps|], u)
    {
      RunKeepsTracked(c, states, steps, |steps|);
      UnloadLeavesNothing(c, states[|steps|], u);
    }
  }

  function KindFor(x: Class): (k: EventKind)
    ensures ClassOf(k) == x
  {
    match x
    case Process => ProcessExit
    case Image => ImageLoad
    case Registry => RegistryModify
    case Thread => ThreadExit
    case Object => ProcessHandleAccess
  }

  /** Thread 0 unloads, at `pc`, while callback class `x` is registered but not recorded. */
  ghost predicate Unrecorded(s: State, pc: Pc, x: Class) {
    && s.pcs == map[0 := pc, 1 := Idle] && s.sh.queue == [] && s.sh.pending == None
    && s.kern.unloader == Some(0) && 0 in s.kern.roles && s.kern.roles[0] == Unload
    && x in s.kern.registered && x !in s.kern.recorded
  }

  lemma Begin(c: Config, s0: State, x: Class) returns (s: State)
    requires Init(s0) && x in s0.kern.registered && x !in s0.kern.recorded
    ensures Leads(c, s0, s) && Unrecorded(s, Deregister(0), x) && s.sh.lock == None
  {
    hide Leads;
    LeadsNowhere(c, s0);
    s := Along(c, s0, s0, Spawn(0));
    s := Along(c, s0, s, Spawn(1));
    s := Along(c, s0, s, Teardown(0, StartUnload));
  }

  lemma RemoveOne(c: Config, s: State, k: nat, x: Class)
    requires Unrecorded(s, Deregister(k), x) && k <= CLASSES && s.sh.lock == None
    ensures var a := Teardown(0, DoDeregister);
            && Enabled(c, s, a) && Do(c, s, a).sh.lock == None
            && Unrecorded(Do(c, s, a), if k < CLASSES then Deregister(k + 1) else UnloadSwap, x)
  {
  }

  lemma {:induction false} RemoveAll(c: Config, s0: State, s: State, k: nat, x: Class) returns (s': State)
    requires Leads(c, s0, s) && Unrecorded(s, Deregister(k), x) && k <= CLASSES && s.sh.lock == None
    ensures Leads(c, s0, s') && Unrecorded(s', UnloadSwap, x) && s'.sh.lock == None
    decreases CLASSES - k
  {
    hide Leads, Unrecorded, Enabled, Do;
    RemoveOne(c, s, k, x);
    s' := Along(c, s0, s, Teardown(0, DoDeregister));
    if k < CLASSES { s' := RemoveAll(c, s0, s', k + 1, x); }
  }

  lemma End(c: Config, s0: State, s: State, x: Class) returns (s': State)
    requires Leads(c, s0, s) && Unrecorded(s, UnloadSwap, x) && s.sh.lock == None
    ensures Leads(c, s0, s') && Unrecorded(s', Unloaded, x)
  {
    hide Leads;
    s' := Along(c, s0, s, Teardown(0, DoUnloadSwap));
    s' := Along(c, s0, s', Teardown(0, LockForDrain));
    s' := Along(c, s0, s', Teardown(0, DrainDone));
  }

  lemma Afterwards(c: Config, s0: State, s: State, x: Class) returns (s': State)
    requires Leads(c, s0, s) && Unrecorded(s, Unloaded, x)
    ensures Leads(c, s0, s') && HasUnloaded(s', 0) && s'.pool.mem != map[]
  {
    hide Leads;
    s' := Along(c, s0, s, Build(1, StartCallback(x)));
    s' := Along(c, s0, s', Build(1, AllocOk(KindFor(x))));
    assert s.pool.next in s'.pool.mem;
  }

  function Start(load: Kernel): State {
    State(map[], Shared(None, [], None, 0, 0), Pool(0, map[]), Io(map[], map[], map[]), load,
          Places(map[], map[], 0), Order([], []), Accounts({}, map[], [], [], 0), Records(map[], map[], map[], map[], []), {})
  }

  lemma UnrecordedIsUnclean(c: Config, load: Kernel, x: Class)
    requires load.roles == map[] && load.unloader == None && x in load.registered && x !in load.recorded
    ensures !AlwaysClean(c, load)
  {
    var s0 := Start(load);
    assert Init(s0) && s0.kern == load;
    hide Leads, Init, Unrecorded, Start, HasUnloaded;
    var s1 := Begin(c, s0, x);
    var s2 := RemoveAll(c, s0, s1, 0, x);
    var s3 := End(c, s0, s2, x);
    var s4 := Afterwards(c, s0, s3, x);
    UncleanRun(c, load, s0, s4);
  }

  lemma UncleanRun(c: Config, load: Kernel, s0: State, s: State)
    requires Init(s0) && s0.kern == load && Leads(c, s0, s) && HasUnloaded(s, 0) && s.pool.mem != map[]
    ensures !AlwaysClean(c, load)
  {
    hide Enabled, Do, Init;
    var states: seq<State>, steps: seq<Step> :| IsPath(c, states, steps) && states[0] == s0 && states[|steps|] == s;
    assert IsRun(c, states, steps) && !LeftClean(states[|steps|], 0);
  }

  /** Unloading always leaves nothing behind if and only if every callback registered at load is recorded. */
  lemma UnloadCleanIff(c: Config, load: Kernel)
    requires load.roles == map[] && load.unloader == None
    ensures AlwaysClean(c, load) <==> load.registered <= load.recorded
  {
    hide AlwaysClean;
    if load.registered <= load.recorded {
      RecordedIsClean(c, load);
    } else {
      var x :| x in load.registered && x !in load.recorded;
      UnrecordedIsUnclean(c, load, x);
    }
  }

  // ---------------------------------------------------------------- what `driver_entry` records

  function Classes(ks: seq<Token>): set<Class> { set i | 0 <= i < |ks| :: TokenClass(ks[i]) }

  /** The kernel's and the driver's view of the callbacks after `driver_entry`. */
  function LoadOf(r: Answers): Kernel {
    Kernel(Classes(Accepted(r)), Classes(Removals(FlagsAfter(r))), map[], None)
  }

  lemma ClassesConcat(a: seq<Token>, b: seq<Token>)
    ensures Classes(a + b) == Classes(a) + Classes(b)
  {
    forall x | x in Classes(a) + Classes(b) ensures x in Classes(a + b) {
      if x in Classes(a) {
        var i :| 0 <= i < |a| && TokenClass(a[i]) == x;
        assert TokenClass((a + b)[i]) == x;
      } else {
        var i :| 0 <= i < |b| && TokenClass(b[i]) == x;
        assert TokenClass((a + b)[|a| + i]) == x;
      }
    }
  }

  lemma ClassesListed(k: Token, present: bool)
    ensures Classes(Listed(k, present)) == if present then {TokenClass(k)} else {}
  {
    if present { assert TokenClass(Listed(k, present)[0]) in Classes(Listed(k, present)); }
  }

  lemma ClassesOfFive(a: Token, pa: bool, b: Token, pb: bool, c: Token, pc: bool, d: Token, pd: bool, e: Token, pe: bool)
    ensures Classes(Listed(a, pa) + Listed(b, pb) + Listed(c, pc) + Listed(d, pd) + Listed(e, pe))
            == (if pa then {TokenClass(a)} else {}) + (if pb then {TokenClass(b)} else {})
               + (if pc then {TokenClass(c)} else {}) + (if pd then {TokenClass(d)} else {})
               + (if pe then {TokenClass(e)} else {})
  {
    hide Listed, Classes, TokenClass;
    var l1, l2, l3, l4, l5 := Listed(a, pa), Listed(b, pb), Listed(c, pc), Listed(d, pd), Listed(e, pe);
    ClassesConcat(l1 + l2 + l3 + l4, l5);
    ClassesConcat(l1 + l2 + l3, l4);
    ClassesConcat(l1 + l2, l3);
    ClassesConcat(l1, l2);
    ClassesListed(a, pa);
    ClassesListed(b, pb);
    ClassesListed(c, pc);
    ClassesListed(d, pd);
    ClassesListed(e, pe);
  }

  lemma LoadRecordedIff(r: Answers)
    ensures LoadOf(r).registered <= LoadOf(r).recorded <==> !(r.device && r.symlink && r.objectCb && r.handle == 0)
  {
    var f := FlagsAfter(r);
    hide Listed, Classes;
    ClassesOfFive(ProcessRoutine, r.process, ImageRoutine, r.image, RegistryCookie(r.cookie), r.registry,
                  ThreadRoutine, r.thread, ObjectHandle(r.handle), r.objectCb);
    ClassesOfFive(ObjectHandle(f.handle), f.handle != 0, ThreadRoutine, f.thread, RegistryCookie(f.cookie), f.registry,
                  ImageRoutine, f.image, ProcessRoutine, f.process);
    NoClasses();
  }

  lemma NoClasses()
    ensures Classes([]) == {}
  {
  }

  /** For every outcome of `driver_entry`, every run that unloads is left clean if and only if the object
      manager did not accept with a null handle. */
  lemma LoadUnloadCleanIff(c: Config, r: Answers)
    ensures AlwaysClean(c, LoadOf(r)) <==> !(r.device && r.symlink && r.objectCb && r.handle == 0)
  {
    hide AlwaysClean;
    LoadRecordedIff(r);
    UnloadCleanIff(c, LoadOf(r));
  }

  /** The flags are tested in the order in which the protocol removes the classes. */
  lemma RemovalsInUnloadOrder(f: Flags, i: nat, j: nat)
    requires i < j < |Removals(f)|
    ensures UnloadRank(TokenClass(Removals(f)[i])) < UnloadRank(TokenClass(Removals(f)[j]))
  {
  }
}
