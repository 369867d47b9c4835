/** Runs of the driver as it is written that show where its comments promise more than the code gives. */
module Witness {
  import opened Wire
  import opened Protocol
  import opened Subsequences
  import opened Irps
  import opened Requests
  import opened Roles
  import opened Theorems
  import opened Runs

  // ---------------------------------------------------------------- the late pending mark

  /** The next step of thread `t` marks an IRP that is already completed. */
  ghost predicate MarksTooLate(c: Config, s: State, t: Tid, irp: Irp) {
    && t in s.pcs && s.pcs[t] == MarkLate(irp) && irp in s.io.completed
    && MarkAfterCompletion(irp) in Do(c, s, Get(t, DoMarkLate)).faults
  }

  lemma TooLate(c: Config, s: State, t: Tid, irp: Irp)
    requires t in s.pcs && s.pcs[t] == MarkLate(irp) && irp in s.io.completed
    ensures MarksTooLate(c, s, t, irp)
  {
  }

  /** Thread `t` has released the lock and not yet marked `irp`; thread `u` is at `pc`. */
  predicate Window(s: State, t: Tid, u: Tid, irp: Irp, outlen: nat, pc: Pc) {
    && t in s.pcs && u in s.pcs && t != u && s.pcs[t] == MarkLate(irp) && s.pcs[u] == pc
    && irp in s.io.reqs && s.io.reqs[irp] == GetEvent(outlen)
  }

  lemma ProducerStarts(c: Config, s0: State, s: State, t: Tid, u: Tid, irp: Irp, outlen: nat) returns (s': State)
    requires Leads(c, s0, s) && Window(s, t, u, irp, outlen, Idle) && Process in s.kern.registered
    requires s.sh.pending == Some(irp) && s.sh.lock == None
    ensures Leads(c, s0, s') && u in s'.pcs && s'.pcs[u].StampDrop? && Window(s', t, u, irp, outlen, s'.pcs[u])
    ensures s'.sh.pending == Some(irp) && s'.sh.lock == None
  {
    hide Leads;
    s' := Along(c, s0, s, Build(u, StartCallback(Process)));
    s' := Along(c, s0, s', Build(u, AllocOk(ProcessExit)));
  }

  lemma ProducerBuilds(c: Config, s0: State, s: State, t: Tid, u: Tid, irp: Irp, outlen: nat) returns (s': State, ev: Slot)
    requires Leads(c, s0, s) && Window(s, t, u, irp, outlen, Idle) && Process in s.kern.registered
    requires s.sh.pending == Some(irp) && s.sh.lock == None
    ensures Leads(c, s0, s') && Window(s', t, u, irp, outlen, Filling(ev))
    ensures s'.sh.pending == Some(irp) && s'.sh.lock == None
  {
    hide Leads, EncodeHeader;
    s' := ProducerStarts(c, s0, s, t, u, irp, outlen);
    s' := Along(c, s0, s', Build(u, DoStampDrop));
    s' := Along(c, s0, s', Build(u, DoStampTrunc(0)));
    ev := s'.pcs[u].ev;
  }

  lemma ProducerDecides(c: Config, s0: State, s: State, t: Tid, u: Tid, irp: Irp, outlen: nat, ev: Slot)
    returns (s': State, fits: bool)
    requires Leads(c, s0, s) && Window(s, t, u, irp, outlen, Filling(ev))
    requires s.sh.pending == Some(irp) && s.sh.lock == None
    ensures Leads(c, s0, s') && Window(s', t, u, irp, outlen, Settle(ev, irp, fits))
  {
    hide Leads, CopyFaults, TouchFaults;
    s' := Along(c, s0, s, Submit(u, SubmitLock));
    s' := Along(c, s0, s', Submit(u, DoSwapPending));
    s' := Along(c, s0, s', Submit(u, Decide));
    s' := Along(c, s0, s', Submit(u, UnlockDecided));
    fits := s'.pcs[u].fits;
  }

  lemma ProducerCompletes(c: Config, s0: State, s: State, t: Tid, u: Tid, irp: Irp, outlen: nat, ev: Slot, fits: bool)
    returns (s': State)
    requires Leads(c, s0, s) && Window(s, t, u, irp, outlen, Settle(ev, irp, fits))
    ensures Leads(c, s0, s') && t in s'.pcs && s'.pcs[t] == MarkLate(irp) && irp in s'.io.completed
  {
    hide Leads;
    s' := Along(c, s0, s, Handle(u, SettleFree));
    if !fits { s' := Along(c, s0, s', Handle(u, DoCountRefusal)); }
    s' := Along(c, s0, s', Handle(u, DoFinish));
  }

  /** A producer in the window: from any state in which a dispatcher stands between the release of the lock
      and the mark, one process callback on another thread completes the IRP before the mark, whatever the
      size of the caller's buffer. */
  lemma LateMarkRace(c: Config, s: State, t: Tid, u: Tid, irp: Irp, outlen: nat)
    requires Window(s, t, u, irp, outlen, Idle) && Process in s.kern.registered
    requires s.sh.pending == Some(irp) && s.sh.lock == None
    ensures exists s' :: Leads(c, s, s') && MarksTooLate(c, s', t, irp)
  {
    hide *;
    LeadsNowhere(c, s);
    var s1, ev := ProducerBuilds(c, s, s, t, u, irp, outlen);
    var s2, fits := ProducerDecides(c, s, s1, t, u, irp, outlen, ev);
    var s3 := ProducerCompletes(c, s, s2, t, u, irp, outlen, ev, fits);
    TooLate(c, s3, t, irp);
  }

  // ---------------------------------------------------------------- the window is always open

  /** Steps left before the owner of an IRP, past parking, completes it. */
  function ToGo(pc: Pc): nat {
    match pc
    case HavePending(_, _) => 5
    case Decided(_, _, _) => 4
    case Popped(_, _) => 5
    case Checking(_, _) => 4
    case Settle(_, _, _) => 3
    case CountRefusal(_, _) => 2
    case Finish(_, _, _) => 1
    case Rejected(_) => 2
    case Reply(_, _) => 1
    case CleanupSwap(_) => 3
    case CleanupCancel(_, _) => 2
    case UnloadCancel(_) => 1
    case _ => 0
  }

  /** Only thread `u` moves; it completes its IRP or comes nearer to that. */
  ghost predicate Nears(s: State, s': State, u: Tid, irp: Irp) {
    && u in s.pcs && u in s'.pcs && s'.pcs == s.pcs[u := s'.pcs[u]]
    && (irp in s'.io.completed
        || (MainIrp(s'.pcs[u]) == Some(irp) && !WillPark(s'.pcs[u]) && ToGo(s'.pcs[u]) < ToGo(s.pcs[u])))
  }

  lemma SubmitterNears(c: Config, s: State, u: Tid) returns (a: SubmitStep)
    requires u in s.pcs && (s.pcs[u].HavePending? || s.pcs[u].Decided?)
    ensures SubmitEnabled(c, s, u, a) && Nears(s, DoSubmit(c, s, u, a), u, s.pcs[u].irp)
  {
    hide CopyFaults, TouchFaults;
    a := if s.pcs[u].HavePending? then Decide else UnlockDecided;
  }

  lemma GetterNears(c: Config, s: State, u: Tid) returns (a: GetStep)
    requires u in s.pcs && (s.pcs[u].Popped? || s.pcs[u].Checking? || s.pcs[u].Rejected?)
    ensures GetEnabled(s, u, a) && Nears(s, DoGet(c, s, u, a), u, s.pcs[u].irp)
  {
    hide CopyFaults;
    a := if s.pcs[u].Popped? then UnlockPopped else if s.pcs[u].Checking? then Check else UnlockRejected;
  }

  lemma SettlerNears(s: State, u: Tid) returns (a: IrpStep)
    requires u in s.pcs && SettlePc(s.pcs[u])
    ensures IrpEnabled(s, u, a) && Nears(s, DoIrp(s, u, a), u, s.pcs[u].irp)
  {
    a := if s.pcs[u].Settle? then SettleFree else if s.pcs[u].CountRefusal? then DoCountRefusal else DoFinish;
  }

  lemma ReplierNears(s: State, u: Tid) returns (a: IrpStep)
    requires u in s.pcs && (s.pcs[u].Reply? || s.pcs[u].CleanupSwap? || s.pcs[u].CleanupCancel?)
    ensures IrpEnabled(s, u, a) && Nears(s, DoIrp(s, u, a), u, s.pcs[u].irp)
  {
    a := if s.pcs[u].Reply? then DoReply else if s.pcs[u].CleanupSwap? then DoCleanupSwap else DoCleanupCancel;
  }

  lemma UnloaderNears(s: State, u: Tid)
    requires u in s.pcs && s.pcs[u].UnloadCancel?
    ensures UnloadEnabled(s, u, DoUnloadCancel) && Nears(s, DoUnload(s, u, DoUnloadCancel), u, s.pcs[u].irp)
  {
  }

  lemma OwnerNears(c: Config, s: State, u: Tid, irp: Irp) returns (a: Step)
    requires u in s.pcs && MainIrp(s.pcs[u]) == Some(irp) && !WillPark(s.pcs[u])
    ensures Enabled(c, s, a) && Nears(s, Do(c, s, a), u, irp)
  {
    hide Nears, SubmitEnabled, DoSubmit, GetEnabled, DoGet, IrpEnabled, DoIrp, UnloadEnabled, DoUnload;
    var pc := s.pcs[u];
    if pc.HavePending? || pc.Decided? {
      var b := SubmitterNears(c, s, u);
      a := Submit(u, b);
    } else if pc.Popped? || pc.Checking? || pc.Rejected? {
      var b := GetterNears(c, s, u);
      a := Get(u, b);
    } else if SettlePc(pc) {
      var b := SettlerNears(s, u);
      a := Handle(u, b);
    } else if pc.UnloadCancel? {
      UnloaderNears(s, u);
      a := Teardown(u, DoUnloadCancel);
    } else {
      var b := ReplierNears(s, u);
      a := Handle(u, b);
    }
  }

  /** The owner of an IRP past parking can complete it by its own steps. */
  lemma {:induction false} Drive(c: Config, s0: State, s: State, t: Tid, u: Tid, irp: Irp) returns (s': State)
    requires Leads(c, s0, s) && t in s.pcs && s.pcs[t] == MarkLate(irp) && t != u
    requires u in s.pcs && MainIrp(s.pcs[u]) == Some(irp) && !WillPark(s.pcs[u])
    ensures Leads(c, s0, s') && t in s'.pcs && s'.pcs[t] == MarkLate(irp) && irp in s'.io.completed
    decreases ToGo(s.pcs[u])
  {
    hide Leads, MainIrp, WillPark, Enabled, Do, ToGo;
    var a := OwnerNears(c, s, u, irp);
    s' := Along(c, s0, s, a);
    if irp !in s'.io.completed { s' := Drive(c, s0, s', t, u, irp); }
  }

  lemma {:induction false} Above(ns: set<nat>) returns (n: nat)
    ensures forall m: nat :: m in ns ==> m < n
    decreases |ns|
  {
    n := 0;
    if ns != {} {
      var m :| m in ns;
      var k := Above(ns - {m});
      n := if m < k then k else m + 1;
      assert forall j: nat :: j in ns ==> j == m || j in ns - {m};
    }
  }

  /** A parked IRP: a new thread closes a handle and cancels it. */
  lemma Cancel(c: Config, s: State, t: Tid, irp: Irp) returns (s': State)
    requires t in s.pcs && s.pcs[t] == MarkLate(irp) && s.sh.pending == Some(irp) && s.kern.unloader == None
    ensures Leads(c, s, s') && t in s'.pcs && s'.pcs[t] == MarkLate(irp) && irp in s'.io.completed
  {
    hide Leads;
    LeadsNowhere(c, s);
    var u := Above(s.pcs.Keys);
    var j := Above(s.io.reqs.Keys);
    s' := Along(c, s, s, Spawn(u));
    s' := Along(c, s, s', Handle(u, Arrive(j, Cleanup, [])));
    s' := Along(c, s, s', Handle(u, DoCleanupSwap));
    s' := Along(c, s, s', Handle(u, DoCleanupCancel));
  }

  /** An IRP taken by a cleanup. */
  lemma CancelTaken(c: Config, s: State, t: Tid, u: Tid, irp: Irp) returns (s': State)
    requires t in s.pcs && s.pcs[t] == MarkLate(irp) && u in s.pcs && ExtraIrp(s.pcs[u]) == Some(irp)
    ensures Leads(c, s, s') && t in s'.pcs && s'.pcs[t] == MarkLate(irp) && irp in s'.io.completed
  {
    hide Leads;
    LeadsNowhere(c, s);
    s' := Along(c, s, s, Handle(u, DoCleanupCancel));
  }

  lemma MarkerFacts(c: Config, s: State, t: Tid)
    requires Reachable(c, s) && t in s.pcs && s.pcs[t].MarkLate?
    ensures s.kern.unloader == None && s.pcs[t].parked in s.io.reqs && PastParking(s, s.pcs[t].parked)
  {
    hide *;
    Families(c, s);
    MarksArePast(c, s);
    MarkerKnown(s, t);
  }

  lemma MarkerKnown(s: State, t: Tid)
    requires RoleInv(s) && RequestInv(s) && MarksPast(s) && t in s.pcs && s.pcs[t].MarkLate?
    ensures s.kern.unloader == None && s.pcs[t].parked in s.io.reqs && PastParking(s, s.pcs[t].parked)
  {
    assert RoleOk(s, t);
    hide RoleInv, PastParking;
  }

  lemma NotParking(s: State, u: Tid, irp: Irp)
    requires PastParking(s, irp) && u in s.pcs && MainIrp(s.pcs[u]) == Some(irp)
    ensures !WillPark(s.pcs[u])
  {
  }

  /** The window is always open: from every reachable state in which a dispatcher stands between the release
      of the lock and the mark, whoever holds the IRP and the lock, some path leads to the mark of a
      completed IRP. */
  lemma WindowAlwaysOpen(c: Config, s: State, t: Tid)
    requires Reachable(c, s) && t in s.pcs && s.pcs[t].MarkLate?
    ensures exists s' :: Leads(c, s, s') && MarksTooLate(c, s', t, s.pcs[t].parked)
  {
    var irp := s.pcs[t].parked;
    MarkerFacts(c, s, t);
    IrpInOnePlace(c, s, irp);
    LeadsNowhere(c, s);
    hide Reachable, Leads, PastParking, MarksTooLate, WillPark, MainIrp, ExtraIrp;
    var s' := s;
    if irp !in s.io.completed {
      var o :| IrpOf(s, o) == Some(irp);
      match o
      case PendingSlot => s' := Cancel(c, s, t, irp);
      case Extra(u) => s' := CancelTaken(c, s, t, u, irp);
      case Main(u) =>
        NotParking(s, u, irp);
        NotOwn(s, t);
        s' := Drive(c, s, s, t, u, irp);
    }
    TooLate(c, s', t, irp);
  }

  lemma NotOwn(s: State, t: Tid)
    requires t in s.pcs && s.pcs[t].MarkLate?
    ensures MainIrp(s.pcs[t]) == None
  {
  }

  lemma Loaded(c: Config, x: Class) returns (s: State)
    ensures Reachable(c, s) && Init(s) && s.kern.registered == {x}
  {
    s := State(map[], Shared(None, [], None, 0, 0), Pool(0, map[]), Io(map[], map[], map[]), Kernel({x}, {x}, map[], None),
               Places(map[], map[], 0), Order([], []), Accounts({}, map[], [], [], 0), Records(map[], map[], map[], map[], []), {});
    assert IsRun(c, [s], []) && [s][0] == s;
  }

  /** Two threads, one of which has sent a get-event request with `outlen` bytes of room. */
  lemma OneRequest(c: Config, x: Class, outlen: nat) returns (s: State)
    ensures Reachable(c, s) && s.sh == Shared(None, [], None, 0, 0) && s.kern.registered == {x}
    ensures s.pcs == map[0 := GetLock(0), 1 := Idle] && s.io.reqs == map[0 := GetEvent(outlen)]
    ensures s.acc == Accounts({}, map[], [], [], 0) && s.at.buf == map[] && s.pool.next == 0
  {
    hide Reachable;
    s := Loaded(c, x);
    s := After(c, s, Spawn(0));
    s := After(c, s, Spawn(1));
    s := After(c, s, Handle(0, Arrive(0, GetEvent(outlen), Zeros(outlen))));
  }

  /** That request is parked, and its dispatcher stands before the mark. */
  lemma ParkedOne(c: Config, x: Class, outlen: nat) returns (s: State)
    requires !c.markFirst
    ensures Reachable(c, s) && s.sh == Shared(None, [], Some(0), 0, 0) && s.kern.registered == {x}
    ensures s.pcs == map[0 := MarkLate(0), 1 := Idle] && s.io.reqs == map[0 := GetEvent(outlen)]
    ensures s.acc == Accounts({}, map[], [], [], 0) && s.at.buf == map[] && s.pool.next == 0
  {
    hide Reachable;
    s := OneRequest(c, x, outlen);
    s := After(c, s, Get(0, LockForGet));
    s := After(c, s, Get(0, FoundEmpty));
    s := After(c, s, Get(0, DoPark));
    s := After(c, s, Get(0, UnlockParked));
  }

  /** The order of mark and park is the exact condition: no run has any fault if and only if the mark comes
      first. */
  lemma MarkOrderIff(c: Config)
    ensures c.markFirst <==> forall s :: Reachable(c, s) ==> s.faults == {}
  {
    hide Reachable, MarksTooLate;
    if c.markFirst {
      forall s | Reachable(c, s) ensures s.faults == {} { NoFaults(c, s); }
    } else {
      var s := ParkedOne(c, Process, 0);
      WindowAlwaysOpen(c, s, 0);
      var s1 :| Leads(c, s, s1) && MarksTooLate(c, s1, 0, 0);
      FaultReached(c, s, s1, 0, 0);
    }
  }

  lemma FaultReached(c: Config, s: State, s1: State, t: Tid, irp: Irp)
    requires Reachable(c, s) && Leads(c, s, s1) && MarksTooLate(c, s1, t, irp)
    ensures exists s' :: Reachable(c, s') && MarkAfterCompletion(irp) in s'.faults
  {
    hide Reachable, Leads;
    LeadsReachable(c, s, s1);
    Extends(c, s1, Get(t, DoMarkLate));
  }

  /** In the written order the mark can touch a completed IRP, at the driver's own capacity. */
  lemma LateMarkWitness()
    ensures exists s :: Reachable(DRIVER, s) && MarkAfterCompletion(0) in s.faults
  {
    hide Reachable, MarksTooLate;
    var s := ParkedOne(DRIVER, Process, LARGEST_EVENT);
    LateMarkRace(DRIVER, s, 0, 1, 0, LARGEST_EVENT);
    var s1 :| Leads(DRIVER, s, s1) && MarksTooLate(DRIVER, s1, 0, 0);
    FaultReached(DRIVER, s, s1, 0, 0);
  }

  // ---------------------------------------------------------------- a drop stamp that never arrives

  lemma ParkedAndMarked() returns (s: State)
    ensures Reachable(DRIVER, s) && s.sh == Shared(None, [], Some(0), 0, 0) && s.kern.registered == {Process}
    ensures s.pcs == map[0 := Idle, 1 := InCallback] && s.io.reqs == map[0 := GetEvent(0)]
    ensures s.acc == Accounts({}, map[], [], [], 0) && s.at.buf == map[] && s.pool.next == 0
  {
    hide Reachable;
    s := ParkedOne(DRIVER, Process, 0);
    s := After(DRIVER, s, Get(0, DoMarkLate));
    s := After(DRIVER, s, Build(1, StartCallback(Process)));
  }

  lemma AfterOom() returns (s: State)
    ensures Reachable(DRIVER, s) && s.sh == Shared(None, [], Some(0), 1, 0) && s.kern.registered == {Process}
    ensures s.pcs == map[0 := Idle, 1 := Idle] && s.io.reqs == map[0 := GetEvent(0)]
    ensures s.acc == Accounts({0}, map[], [], [], 0) && s.at.buf == map[0 := OutOfMemory] && s.pool.next == 1
  {
    hide Reachable;
    s := ParkedAndMarked();
    s := After(DRIVER, s, Build(1, AllocFail));
    s := After(DRIVER, s, Build(1, DoCountOom));
  }

  lemma SecondEvent() returns (s: State)
    ensures Reachable(DRIVER, s) && s.sh == Shared(None, [], Some(0), 1, 0) && s.io.reqs == map[0 := GetEvent(0)]
    ensures s.pcs == map[0 := Idle, 1 := StampDrop(Slot(1, EventSize(ProcessExit)), ProcessExit)]
    ensures s.acc == Accounts({0}, map[], [], [], 0) && s.at.buf == map[0 := OutOfMemory, 1 := Owned(ByThread(1))]
  {
    hide Reachable;
    s := AfterOom();
    s := After(DRIVER, s, Build(1, StartCallback(Process)));
    s := After(DRIVER, s, Build(1, AllocOk(ProcessExit)));
  }

  lemma StampTaken() returns (s: State)
    ensures Reachable(DRIVER, s) && s.sh == Shared(None, [], Some(0), 0, 0) && s.io.reqs == map[0 := GetEvent(0)]
    ensures s.pcs == map[0 := Idle, 1 := Filling(Slot(1, EventSize(ProcessExit)))]
    ensures s.acc.counted == {0} && s.acc.uncounted == map[] && s.acc.dropLog == [Stamp(1, 1)]
    ensures s.at.buf == map[0 := OutOfMemory, 1 := Owned(ByThread(1))]
  {
    hide Reachable, EncodeHeader;
    s := SecondEvent();
    s := After(DRIVER, s, Build(1, DoStampDrop));
    s := After(DRIVER, s, Build(1, DoStampTrunc(0)));
  }

  lemma StampRefused() returns (s: State)
    ensures Reachable(DRIVER, s) && s.sh == Shared(None, [], None, 0, 0)
    ensures s.pcs == map[0 := Idle, 1 := Settle(Slot(1, EventSize(ProcessExit)), 0, false)]
    ensures s.acc.counted == {0} && s.acc.uncounted == map[] && s.acc.dropLog == [Stamp(1, 1)]
    ensures s.at.buf == map[0 := OutOfMemory, 1 := Owned(ByThread(1))]
  {
    hide Reachable, TouchFaults;
    s := StampTaken();
    s := After(DRIVER, s, Submit(1, SubmitLock));
    s := After(DRIVER, s, Submit(1, DoSwapPending));
    s := After(DRIVER, s, Submit(1, Decide));
    s := After(DRIVER, s, Submit(1, UnlockDecided));
  }

  lemma StampLost() returns (s: State)
    ensures Reachable(DRIVER, s) && s.pcs == map[0 := Idle, 1 := Idle]
    ensures s.acc.counted == {0, 1} && s.acc.dropLog == [Stamp(1, 1)] && s.sh.drop == 1
    ensures s.at.buf == map[0 := OutOfMemory, 1 := Refused(0)]
  {
    hide Reachable;
    s := StampRefused();
    s := After(DRIVER, s, Handle(1, SettleFree));
    s := After(DRIVER, s, Handle(1, DoCountRefusal));
    s := After(DRIVER, s, Handle(1, DoFinish));
  }

  /** The stamp of an event that is dropped after it was built is lost: two losses are counted, every
      routine has returned, the counter will report one of them, and the other is stamped on an event that
      was refused and stays so in every continuation. */
  lemma LostStampWitness()
    ensures exists s :: Reachable(DRIVER, s) && s.pcs == map[0 := Idle, 1 := Idle]
                        && |s.acc.counted| == 2 && s.sh.drop == 1 && s.acc.dropLog == [Stamp(1, 1)]
                        && StaysPut(DRIVER, s, 1) && s.at.buf[1].Refused? && DeliveredEvents(s) == {}
  {
    hide Reachable, StaysPut;
    var s := StampLost();
    FateStaysPut(DRIVER, s, 1);
    assert |s.acc.counted| == 2;
    assert DeliveredEvents(s) == {};
  }

  // ---------------------------------------------------------------- a truncation stamp that never arrives

  /** A registry callback has cut a path of 600 units before it allocates its event. */
  lemma PathCut() returns (s: State)
    ensures Reachable(DRIVER, s) && s.sh == Shared(None, [], Some(0), 0, 1) && s.io.reqs == map[0 := GetEvent(0)]
    ensures s.pcs == map[0 := Idle, 1 := InCallback] && 1 in s.kern.roles && s.kern.roles[1] == Callback(Registry)
    ensures s.acc == Accounts({}, map[], [], [], 1) && s.at.buf == map[] && s.pool.next == 0
  {
    hide Reachable;
    s := ParkedOne(DRIVER, Registry, 0);
    s := After(DRIVER, s, Get(0, DoMarkLate));
    s := After(DRIVER, s, Build(1, StartCallback(Registry)));
    s := After(DRIVER, s, Build(1, BoundedCopy(600, 511)));
  }

  lemma CutStamped() returns (s: State)
    ensures Reachable(DRIVER, s) && s.sh == Shared(None, [], Some(0), 0, 0) && s.io.reqs == map[0 := GetEvent(0)]
    ensures s.pcs == map[0 := Idle, 1 := Filling(Slot(0, EventSize(RegistryModify)))]
    ensures s.acc.cuts == 1 && s.acc.truncLog == [Stamp(0, 1)] && s.at.buf == map[0 := Owned(ByThread(1))]
  {
    hide Reachable, EncodeHeader;
    s := PathCut();
    s := After(DRIVER, s, Build(1, AllocOk(RegistryModify)));
    s := After(DRIVER, s, Build(1, DoStampDrop));
    s := After(DRIVER, s, Build(1, DoStampTrunc(0)));
  }

  lemma CutRefused() returns (s: State)
    ensures Reachable(DRIVER, s) && s.sh == Shared(None, [], None, 0, 0)
    ensures s.pcs == map[0 := Idle, 1 := Settle(Slot(0, EventSize(RegistryModify)), 0, false)]
    ensures s.acc.cuts == 1 && s.acc.truncLog == [Stamp(0, 1)] && s.at.buf == map[0 := Owned(ByThread(1))]
  {
    hide Reachable, TouchFaults;
    s := CutStamped();
    s := After(DRIVER, s, Submit(1, SubmitLock));
    s := After(DRIVER, s, Submit(1, DoSwapPending));
    s := After(DRIVER, s, Submit(1, Decide));
    s := After(DRIVER, s, Submit(1, UnlockDecided));
  }

  lemma CutLost() returns (s: State)
    ensures Reachable(DRIVER, s) && s.pcs == map[0 := Idle, 1 := Idle] && s.sh.trunc == 0
    ensures s.acc.cuts == 1 && s.acc.truncLog == [Stamp(0, 1)] && s.at.buf == map[0 := Refused(0)]
  {
    hide Reachable;
    s := CutRefused();
    s := After(DRIVER, s, Handle(1, SettleFree));
    s := After(DRIVER, s, Handle(1, DoCountRefusal));
    s := After(DRIVER, s, Handle(1, DoFinish));
  }

  /** The same for truncations: one field was cut, every routine has returned and the counter is zero, but
      the only stamp is on an event that was refused and stays so in every continuation. */
  lemma LostTruncWitness()
    ensures exists s :: Reachable(DRIVER, s) && s.pcs == map[0 := Idle, 1 := Idle]
                        && s.acc.cuts == 1 && s.sh.trunc == 0 && s.acc.truncLog == [Stamp(0, 1)]
                        && StaysPut(DRIVER, s, 0) && s.at.buf[0].Refused? && DeliveredEvents(s) == {}
  {
    hide Reachable, StaysPut;
    var s := CutLost();
    FateStaysPut(DRIVER, s, 0);
    assert DeliveredEvents(s) == {};
  }

  // ---------------------------------------------------------------- completions out of order

  /** Nobody holds the lock, nothing is parked. */
  ghost predicate Calm(s: State) { s.sh.lock == None && s.sh.pending == None }

  lemma EventStarted(s0: State) returns (s: State)
    requires Reachable(DRIVER, s0) && Calm(s0) && 0 in s0.pcs && s0.pcs[0] == Idle && Process in s0.kern.registered
    ensures Reachable(DRIVER, s) && Calm(s) && s.pcs == s0.pcs[0 := StampDrop(Slot(s0.pool.next, 32), ProcessExit)]
    ensures s.sh.queue == s0.sh.queue && s.order == s0.order && s.rec == s0.rec && s.io == s0.io
    ensures s.pool.next == s0.pool.next + 1 && s.kern.unloader == s0.kern.unloader && s.kern.registered == s0.kern.registered
  {
    hide Reachable;
    s := After(DRIVER, s0, Build(0, StartCallback(Process)));
    s := After(DRIVER, s, Build(0, AllocOk(ProcessExit)));
  }

  lemma EventBuilt(s0: State) returns (s: State)
    requires Reachable(DRIVER, s0) && Calm(s0) && 0 in s0.pcs && s0.pcs[0] == Idle && Process in s0.kern.registered
    ensures Reachable(DRIVER, s) && Calm(s) && s.pcs == s0.pcs[0 := Filling(Slot(s0.pool.next, 32))]
    ensures s.kern.registered == s0.kern.registered
    ensures s.sh.queue == s0.sh.queue && s.order == s0.order && s.rec.received == s0.rec.received && s.io == s0.io
    ensures s.pool.next == s0.pool.next + 1 && s.kern.unloader == s0.kern.unloader
  {
    hide Reachable, EncodeHeader;
    s := EventStarted(s0);
    s := After(DRIVER, s, Build(0, DoStampDrop));
    s := After(DRIVER, s, Build(0, DoStampTrunc(0)));
  }

  lemma EventQueued(s0: State) returns (s: State)
    requires Reachable(DRIVER, s0) && Calm(s0) && 0 in s0.pcs && s0.pcs[0] == Idle && Process in s0.kern.registered
    requires |s0.sh.queue| < 2
    ensures Reachable(DRIVER, s) && Calm(s) && s.pcs == s0.pcs && s.kern.registered == s0.kern.registered && s.io == s0.io
    ensures s.sh.queue == s0.sh.queue + [Slot(s0.pool.next, 32)] && s.order.submitted == s0.order.submitted + [s0.pool.next]
    ensures s.rec.received == s0.rec.received && s.pool.next == s0.pool.next + 1 && s.kern.unloader == s0.kern.unloader
  {
    hide Reachable;
    s := EventBuilt(s0);
    s := After(DRIVER, s, Submit(0, SubmitLock));
    s := After(DRIVER, s, Submit(0, DoSwapPending));
    s := After(DRIVER, s, Submit(0, Enqueue));
    s := After(DRIVER, s, Submit(0, UnlockPushed));
  }

  lemma TwoQueued() returns (s: State)
    ensures Reachable(DRIVER, s) && Calm(s) && s.pcs == map[0 := Idle, 1 := Idle] && s.io.reqs == map[]
    ensures s.sh.queue == [Slot(0, 32), Slot(1, 32)] && s.order.submitted == [0, 1] && s.rec.received == [] && s.kern.unloader == None
  {
    hide Reachable;
    s := Loaded(DRIVER, Process);
    s := After(DRIVER, s, Spawn(0));
    s := After(DRIVER, s, Spawn(1));
    s := EventQueued(s);
    s := EventQueued(s);
  }

  lemma TwoAsk() returns (s: State)
    ensures Reachable(DRIVER, s) && Calm(s) && s.pcs == map[0 := GetLock(0), 1 := GetLock(1)]
    ensures s.io.reqs == map[0 := GetEvent(32), 1 := GetEvent(32)] && s.sh.queue == [Slot(0, 32), Slot(1, 32)]
    ensures s.order.submitted == [0, 1] && s.rec.received == []
  {
    hide Reachable;
    s := TwoQueued();
    s := After(DRIVER, s, Handle(0, Arrive(0, GetEvent(32), Zeros(32))));
    s := After(DRIVER, s, Handle(1, Arrive(1, GetEvent(32), Zeros(32))));
  }

  lemma PopsOne(s0: State, t: Tid, irp: Irp) returns (s: State)
    requires Reachable(DRIVER, s0) && Calm(s0) && t in s0.pcs && s0.pcs[t] == GetLock(irp) && s0.sh.queue != []
    ensures Reachable(DRIVER, s) && Calm(s) && s.pcs == s0.pcs[t := Checking(s0.sh.queue[0], irp)] && s.io == s0.io
    ensures s.sh.queue == s0.sh.queue[1..] && s.order.submitted == s0.order.submitted && s.rec == s0.rec
  {
    hide Reachable;
    s := After(DRIVER, s0, Get(t, LockForGet));
    s := After(DRIVER, s, Get(t, Pop));
    s := After(DRIVER, s, Get(t, UnlockPopped));
  }

  lemma AnswersOne(s0: State, t: Tid, ev: Slot, irp: Irp) returns (s: State)
    requires Reachable(DRIVER, s0) && t in s0.pcs && s0.pcs[t] == Checking(ev, irp) && Outlen(s0, irp) >= ev.size
    ensures Reachable(DRIVER, s) && s.pcs == s0.pcs[t := Idle] && s.io.reqs == s0.io.reqs
    ensures s.rec.received == s0.rec.received + [ev.data] && s.order == s0.order
  {
    hide Reachable, CopyFaults;
    s := After(DRIVER, s0, Get(t, Check));
    s := After(DRIVER, s, Handle(t, SettleFree));
    s := After(DRIVER, s, Handle(t, DoFinish));
  }

  /** With two requests outstanding, events can complete in the opposite order of their submission. */
  lemma TwoRequestsWitness()
    ensures exists s :: Reachable(DRIVER, s) && s.order.submitted == [0, 1] && s.rec.received == [1, 0]
                        && !Subsequence(s.rec.received, s.order.submitted)
  {
    hide Reachable, Subsequence;
    var s := TwoAsk();
    s := PopsOne(s, 0, 0);
    s := PopsOne(s, 1, 1);
    s := AnswersOne(s, 1, Slot(1, 32), 1);
    s := AnswersOne(s, 0, Slot(0, 32), 0);
    assert s.rec.received == [1, 0];
    Crossed(s.rec.received, s.order.submitted);
  }

  lemma Crossed(a: seq<Buf>, b: seq<Buf>)
    requires a == [1, 0] && b == [0, 1]
    ensures !Subsequence(a, b)
  {
    forall f ensures !Embeds(f, a, b) {
      if |f| == 2 && f[0] < 2 && f[1] < 2 && b[f[0]] == 1 && b[f[1]] == 0 {
        assert f[0] == 1 && f[1] == 0;
      }
      assert a[0] == 1 && a[1] == 0;
    }
  }
}
