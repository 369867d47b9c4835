/** What the agent can still learn: stamps on dead events are lost for ever, and at rest nothing else is. */
module Reporting {
  import opened Wire
  import opened Protocol
  import opened Buffers
  import opened Control
  import opened Roles
  import opened Delivery
  import opened Theorems
  import opened Runs
  import opened Reports
  import opened Witness
  import opened Unloading
  import opened Completions

  /** Events that are neither in anybody's hands nor delivered: never allocated, evicted, refused, drained. */
  ghost function DeadEvents(s: State): set<Buf> {
    set b | b in s.at.buf && !s.at.buf[b].Owned? && !s.at.buf[b].Delivered?
  }

  // ---------------------------------------------------------------- logs only grow

  ghost predicate LogsGrow(s: State, s': State) { s.acc.dropLog <= s'.acc.dropLog && s.acc.truncLog <= s'.acc.truncLog }

  lemma BuildGrowsLogs(s: State, t: Tid, a: BuildStep)
    requires t in s.pcs && BuildEnabled(s, t, a)
    ensures LogsGrow(s, DoBuild(s, t, a))
  {
    hide EncodeHeader;
  }

  lemma OthersKeepLogs(c: Config, s: State, a: Step)
    requires Enabled(c, s, a) && !a.Build?
    ensures LogsGrow(s, Do(c, s, a))
  {
    hide NoneRunning, CopyFaults, TouchFaults;
    match a
    case Spawn(_) =>
    case Submit(_, _) =>
    case Get(_, _) =>
    case Handle(_, _) =>
    case Teardown(_, _) =>
  }

  lemma StepGrowsLogs(c: Config, s: State, a: Step)
    requires Enabled(c, s, a)
    ensures LogsGrow(s, Do(c, s, a))
  {
    if a.Build? {
      hide BuildEnabled, DoBuild;
      BuildGrowsLogs(s, a.t, a.build);
    } else {
      hide Enabled, Do;
      OthersKeepLogs(c, s, a);
    }
  }

  lemma {:induction false} PathGrowsLogs(c: Config, states: seq<State>, steps: seq<Step>, k: nat)
    requires IsPath(c, states, steps) && k <= |steps|
    ensures LogsGrow(states[0], states[k])
  {
    hide Enabled, Do;
    if k > 0 {
      PathGrowsLogs(c, states, steps, k - 1);
      StepGrowsLogs(c, states[k - 1], steps[k - 1]);
    }
  }

  lemma LeadsGrowsLogs(c: Config, s: State, s': State)
    requires Leads(c, s, s')
    ensures LogsGrow(s, s')
  {
    hide Enabled, Do, LogsGrow;
    var states: seq<State>, steps: seq<Step> :| IsPath(c, states, steps) && states[0] == s && states[|steps|] == s';
    PathGrowsLogs(c, states, steps, |steps|);
  }

  // ---------------------------------------------------------------- dead stamps stay lost

  lemma {:induction false} TotalMonotone(log: seq<Stamp>, more: seq<Stamp>, bs: set<Buf>, cs: set<Buf>)
    requires bs <= cs && log <= more
    ensures TotalOver(log, bs) <= TotalOver(more, cs)
    decreases |more|
  {
    if |more| > |log| {
      TotalMonotone(log, more[..|more| - 1], bs, cs);
    } else if log != [] {
      assert log == more;
      TotalMonotone(log[..|log| - 1], more[..|log| - 1], bs, cs);
    }
  }

  lemma ReadAreDelivered(s: State)
    requires ReceiptInv(s)
    ensures DeadEvents(s) <= UnreadEvents(s)
  {
    hide Received, RefusedBy, Delivers;
    forall i | i in ReadEvents(s) ensures ReadEvents(s)[i] !in DeadEvents(s) {
      assert PlacedAt(s, s.rec.served[i], Delivered(i));
    }
  }

  lemma DeadStay(c: Config, s: State, s': State)
    requires Reachable(c, s) && Leads(c, s, s')
    ensures DeadEvents(s) <= DeadEvents(s')
  {
    hide Reachable, Leads;
    FatesAlong(c, s, s');
  }

  lemma DeadStillUnread(c: Config, s: State, s': State)
    requires Reachable(c, s) && Leads(c, s, s')
    ensures DeadEvents(s) <= UnreadEvents(s') && Reachable(c, s') && LogsGrow(s, s')
  {
    hide *;
    LeadsReachable(c, s, s');
    Families(c, s');
    ReadAreDelivered(s');
    DeadStay(c, s, s');
    LeadsGrowsLogs(c, s, s');
  }

  /** Lost for ever: in every continuation, the reports fall short by at least the stamps that are on dead
      events now. */
  lemma LostForEver(c: Config, s: State, s': State)
    requires Reachable(c, s) && Leads(c, s, s')
    ensures |s'.acc.counted| < 0x1_0000_0000 ==>
              Sum(ReadDrops(s')) + TotalOver(s.acc.dropLog, DeadEvents(s)) <= |s'.acc.counted|
    ensures s'.acc.cuts < 0x1_0000_0000 ==>
              Sum(ReadTruncs(s')) + TotalOver(s.acc.truncLog, DeadEvents(s)) <= s'.acc.cuts
  {
    DeadStillUnread(c, s, s') by { hide *; }
    hide Reachable, Leads, DeadEvents, UnreadEvents, ReadDrops, ReadTruncs, Sum, TotalOver;
    TotalMonotone(s.acc.dropLog, s'.acc.dropLog, DeadEvents(s), UnreadEvents(s'));
    TotalMonotone(s.acc.truncLog, s'.acc.truncLog, DeadEvents(s), UnreadEvents(s'));
    if |s'.acc.counted| < 0x1_0000_0000 { DropsReportedIff(c, s'); }
    if s'.acc.cuts < 0x1_0000_0000 { TruncsReportedIff(c, s'); }
  }

  // ---------------------------------------------------------------- at rest, nothing else is lost

  ghost predicate AllIdle(s: State) { forall t :: t in s.pcs ==> s.pcs[t].Idle? }

  /** No routine is running and nothing is queued; a request may be parked. */
  ghost predicate AtRest(s: State) { AllIdle(s) && s.sh.queue == [] }

  /** Then nobody holds the lock and unloading has not begun. */
  lemma RestIsLoaded(c: Config, s: State)
    requires Reachable(c, s) && AllIdle(s)
    ensures s.sh.lock == None && s.kern.unloader == None
  {
    hide *;
    Families(c, s);
    IdleIsLoaded(c, s);
  }

  lemma IdleIsLoaded(c: Config, s: State)
    requires CtlInv(c, s) && RoleInv(s) && AllIdle(s)
    ensures s.sh.lock == None && s.kern.unloader == None
  {
    hide RemovedUpTo, CallbackPc, DispatchPc;
  }

  /** At rest, loaded, with nothing parked. */
  ghost predicate Ready(s: State) {
    AtRest(s) && s.sh.lock == None && s.kern.unloader == None && s.sh.pending == None
  }

  /** History, counters and queue as in `s`. */
  ghost predicate SameAccounts(s: State, s': State) {
    && s'.acc == s.acc && s'.sh.drop == s.sh.drop && s'.sh.trunc == s.sh.trunc && s'.sh.queue == []
    && s'.at.buf == s.at.buf && s'.pool == s.pool && s'.kern.registered == s.kern.registered
  }

  /** A new thread sends a cleanup request. */
  lemma CleanupSent(c: Config, s: State, u: Tid, j: Irp) returns (s': State)
    requires AtRest(s) && s.sh.lock == None && s.kern.unloader == None && u !in s.pcs && j !in s.io.reqs
    ensures Leads(c, s, s') && SameAccounts(s, s') && s'.pcs == s.pcs[u := CleanupSwap(j)]
    ensures s'.sh.lock == None && s'.kern.unloader == None
  {
    hide Leads;
    LeadsNowhere(c, s);
    s' := Along(c, s, s, Spawn(u));
    s' := Along(c, s, s', Handle(u, Arrive(j, Cleanup, [])));
  }

  lemma CleanedUpBy(c: Config, s0: State, s: State, u: Tid, j: Irp) returns (s': State)
    requires Leads(c, s0, s) && u in s.pcs && s.pcs[u] == CleanupSwap(j) && s.sh.queue == []
    ensures Leads(c, s0, s') && SameAccounts(s, s') && s'.pcs == s.pcs[u := Idle]
    ensures s'.sh.lock == s.sh.lock && s'.kern.unloader == s.kern.unloader && s'.sh.pending == None
  {
    hide Leads;
    s' := Along(c, s0, s, Handle(u, DoCleanupSwap));
    if s.sh.pending.Some? { s' := Along(c, s0, s', Handle(u, DoCleanupCancel)); }
    s' := Along(c, s0, s', Handle(u, DoReply));
  }

  /** Whatever is parked is cancelled first. */
  lemma Cleared(c: Config, s: State) returns (s': State)
    requires AtRest(s) && s.sh.lock == None && s.kern.unloader == None
    ensures Leads(c, s, s') && SameAccounts(s, s') && Ready(s')
  {
    hide Leads;
    var u := Above(s.pcs.Keys);
    var j := Above(s.io.reqs.Keys);
    s' := CleanupSent(c, s, u, j);
    s' := CleanedUpBy(c, s, s', u, j);
  }

  lemma Asked(c: Config, s0: State, s: State, u: Tid, j: Irp) returns (s': State)
    requires Leads(c, s0, s) && Ready(s) && u !in s.pcs && u + 1 !in s.pcs && j !in s.io.reqs
    ensures Leads(c, s0, s') && SameAccounts(s, s') && s'.pcs == s.pcs[u := GetLock(j)][u + 1 := Idle]
    ensures s'.sh.lock == None && s'.sh.pending == None && Outlen(s', j) == LARGEST_EVENT
  {
    hide Leads;
    s' := Along(c, s0, s, Spawn(u));
    s' := Along(c, s0, s', Spawn(u + 1));
    s' := Along(c, s0, s', Handle(u, Arrive(j, GetEvent(LARGEST_EVENT), Zeros(LARGEST_EVENT))));
  }

  lemma AskFoundEmpty(c: Config, s0: State, s: State, u: Tid, j: Irp) returns (s': State)
    requires Leads(c, s0, s) && s.sh.queue == [] && u in s.pcs && s.pcs[u] == GetLock(j) && s.sh.lock == None
    ensures Leads(c, s0, s') && SameAccounts(s, s') && s'.pcs == s.pcs[u := Park(j)]
    ensures s'.sh.pending == s.sh.pending && s'.io == s.io
  {
    hide Leads;
    s' := Along(c, s0, s, Get(u, LockForGet));
    s' := Along(c, s0, s', Get(u, FoundEmpty));
    if c.markFirst { s' := Along(c, s0, s', Get(u, DoMarkEarly)); }
  }

  lemma AskParked(c: Config, s0: State, s: State, u: Tid, j: Irp) returns (s': State)
    requires Leads(c, s0, s) && s.sh.queue == [] && u in s.pcs && s.pcs[u] == Park(j) && s.sh.pending == None
    ensures Leads(c, s0, s') && SameAccounts(s, s') && s'.pcs == s.pcs[u := Idle]
    ensures s'.sh.lock == None && s'.sh.pending == Some(j) && s'.io == s.io
  {
    hide Leads;
    s' := Along(c, s0, s, Get(u, DoPark));
    s' := Along(c, s0, s', Get(u, UnlockParked));
    if !c.markFirst { s' := Along(c, s0, s', Get(u, DoMarkLate)); }
  }

  lemma NextStarted(c: Config, s0: State, s: State, v: Tid, x: Class) returns (s': State)
    requires Leads(c, s0, s) && v in s.pcs && s.pcs[v].Idle? && x in s.kern.registered
    ensures Leads(c, s0, s') && s'.sh == s.sh && s'.acc == s.acc && s'.io == s.io
    ensures s'.pcs == s.pcs[v := StampDrop(Slot(s.pool.next, EventSize(KindFor(x))), KindFor(x))]
    ensures s'.at.buf == s.at.buf[s.pool.next := Owned(ByThread(v))]
  {
    hide Leads;
    s' := Along(c, s0, s, Build(v, StartCallback(x)));
    s' := Along(c, s0, s', Build(v, AllocOk(KindFor(x))));
  }

  /** Both counters are stamped on the event of thread `v`. */
  ghost predicate Stamps(s: State, s': State, b: Buf) {
    && s'.sh == s.sh.(drop := 0, trunc := 0)
    && s'.acc == s.acc.(dropLog := s.acc.dropLog + [Stamp(b, s.sh.drop)], truncLog := s.acc.truncLog + [Stamp(b, s.sh.trunc)])
  }

  lemma NextStamped(c: Config, s0: State, s: State, v: Tid, ev: Slot, k: EventKind) returns (s': State)
    requires Leads(c, s0, s) && v in s.pcs && s.pcs[v] == StampDrop(ev, k)
    ensures Leads(c, s0, s') && Stamps(s, s', ev.data) && s'.pcs == s.pcs[v := Filling(ev)] && s'.at == s.at && s'.io == s.io
  {
    hide Leads, EncodeHeader;
    s' := Along(c, s0, s, Build(v, DoStampDrop));
    s' := Along(c, s0, s', Build(v, DoStampTrunc(0)));
  }

  lemma NextHandedOver(c: Config, s0: State, s: State, v: Tid, ev: Slot, j: Irp) returns (s': State)
    requires Leads(c, s0, s) && v in s.pcs && s.pcs[v] == Filling(ev) && s.sh.lock == None && s.sh.pending == Some(j)
    requires Outlen(s, j) >= ev.size
    ensures Leads(c, s0, s') && s'.acc == s.acc && s'.sh == s.sh.(pending := None) && s'.at.buf == s.at.buf
    ensures s'.pcs == s.pcs[v := Settle(ev, j, true)]
  {
    hide Leads, CopyFaults;
    s' := Along(c, s0, s, Submit(v, SubmitLock));
    s' := Along(c, s0, s', Submit(v, DoSwapPending));
    s' := Along(c, s0, s', Submit(v, Decide));
    s' := Along(c, s0, s', Submit(v, UnlockDecided));
  }

  lemma NextDelivered(c: Config, s0: State, s: State, v: Tid, ev: Slot, j: Irp) returns (s': State)
    requires Leads(c, s0, s) && v in s.pcs && s.pcs[v] == Settle(ev, j, true)
    ensures Leads(c, s0, s') && s'.acc == s.acc && s'.sh == s.sh && s'.at.buf == s.at.buf[ev.data := Delivered(j)]
    ensures s'.pcs == s.pcs[v := Idle]
  {
    hide Leads;
    s' := Along(c, s0, s, Handle(v, SettleFree));
    s' := Along(c, s0, s', Handle(v, DoFinish));
  }

  /** One more event has reported both counters. */
  ghost predicate ReportedOn(s: State, s': State, b: Buf) {
    && AllIdle(s') && s'.sh.queue == [] && s'.sh.drop == 0 && s'.sh.trunc == 0
    && s'.acc == s.acc.(dropLog := s.acc.dropLog + [Stamp(b, s.sh.drop)], truncLog := s.acc.truncLog + [Stamp(b, s.sh.trunc)])
    && b in s'.at.buf && s'.at.buf[b].Delivered? && s'.at.buf == s.at.buf[b := s'.at.buf[b]]
  }

  lemma ParkRun(c: Config, s0: State, s: State) returns (s': State, v: Tid, j: Irp)
    requires Leads(c, s0, s) && Ready(s)
    ensures Leads(c, s0, s') && SameAccounts(s, s') && AllIdle(s') && v in s'.pcs
    ensures s'.sh.lock == None && s'.sh.pending == Some(j) && Outlen(s', j) == LARGEST_EVENT
  {
    hide Leads;
    var u := Above(s.pcs.Keys);
    j := Above(s.io.reqs.Keys);
    v := u + 1;
    s' := Asked(c, s0, s, u, j);
    s' := AskFoundEmpty(c, s0, s', u, j);
    s' := AskParked(c, s0, s', u, j);
  }

  lemma ReportRun(c: Config, s: State) returns (s': State, b: Buf)
    requires AtRest(s) && s.sh.lock == None && s.kern.unloader == None && s.kern.registered != {}
    ensures Leads(c, s, s') && ReportedOn(s, s', b) && b == s.pool.next
  {
    hide Leads, EventSize, KindFor, Outlen;
    var s0 := Cleared(c, s);
    var s1, v, j := ParkRun(c, s, s0);
    var x :| x in s.kern.registered;
    b := s.pool.next;
    var ev := Slot(b, EventSize(KindFor(x)));
    var s2 := NextStarted(c, s, s1, v, x);
    var s3 := NextStamped(c, s, s2, v, ev, KindFor(x));
    assert Outlen(s3, j) == Outlen(s1, j) by { SameOutlen(s1, s3, j); }
    var s4 := NextHandedOver(c, s, s3, v, ev, j);
    s' := NextDelivered(c, s, s4, v, ev, j);
  }

  lemma SameOutlen(s: State, s': State, j: Irp)
    requires s'.io == s.io
    ensures Outlen(s', j) == Outlen(s, j)
  {
  }

  // ---------------------------------------------------------------- the exact condition

  lemma IdleUnreadIsDead(s: State)
    requires BufInv(s) && ReceiptInv(s) && ListsServed(s) && AllIdle(s) && s.sh.queue == []
    ensures UnreadEvents(s) <= DeadEvents(s)
  {
    forall b | b in UnreadEvents(s) ensures b in DeadEvents(s) {
      IdleOwned(s, b);
      if s.at.buf[b].Delivered? { IdleReceived(s, b); }
    }
  }

  lemma IdleOwned(s: State, b: Buf)
    requires BufInv(s) && AllIdle(s) && s.sh.queue == [] && b in s.at.buf
    ensures !s.at.buf[b].Owned?
  {
    assert forall o :: BlockOf(s, o) == None;
    hide BlockOf;
  }

  lemma IdleReceived(s: State, b: Buf)
    requires ReceiptInv(s) && ListsServed(s) && AllIdle(s) && b in s.at.buf && s.at.buf[b].Delivered?
    ensures b in ValuesOf(ReadEvents(s))
  {
    var i := s.at.buf[b].target;
    assert Received(s, b, i);
    hide ReceiptInv;
    assert !Finishing(s, b, i);
    assert i in ReadEvents(s) && ReadEvents(s)[i] == b;
  }

  /** What the agent has read adds up to all losses, or to all cuts. */
  ghost predicate AllDropsRead(s: State) { |s.acc.counted| < 0x1_0000_0000 && Sum(ReadDrops(s)) == |s.acc.counted| }
  ghost predicate AllTruncsRead(s: State) { s.acc.cuts < 0x1_0000_0000 && Sum(ReadTruncs(s)) == s.acc.cuts }

  lemma RestIsRead(c: Config, s: State)
    requires Reachable(c, s) && AllIdle(s) && s.sh.queue == []
    ensures UnreadEvents(s) <= DeadEvents(s)
  {
    hide *;
    Families(c, s);
    ServedInReach(c, s);
    IdleUnreadIsDead(s);
  }

  lemma ReportedDead(s: State, s': State, b: Buf)
    requires ReportedOn(s, s', b) && b !in s.at.buf
    ensures DeadEvents(s') == DeadEvents(s)
  {
    hide AllIdle;
  }

  /** Stamps on dead events are zero in `s`; then so they are after one more event has reported. */
  lemma ZeroKept(log: seq<Stamp>, x: Stamp, dead: set<Buf>, unread: set<Buf>)
    requires TotalOver(log, dead) == 0 && unread <= dead && x.b !in dead
    ensures forall y :: y in log + [x] && y.b in unread ==> y.n == 0
  {
    TotalZeroIff(log, dead);
  }

  lemma AfterReport(c: Config, s: State, s': State, b: Buf)
    requires Reachable(c, s) && Leads(c, s, s') && ReportedOn(s, s', b) && b !in s.at.buf
    ensures |s.acc.counted| < 0x1_0000_0000 && TotalOver(s.acc.dropLog, DeadEvents(s)) == 0 ==> AllDropsRead(s')
    ensures s.acc.cuts < 0x1_0000_0000 && TotalOver(s.acc.truncLog, DeadEvents(s)) == 0 ==> AllTruncsRead(s')
  {
    LeadsReachable(c, s, s') by { hide *; }
    RestIsRead(c, s') by { hide Reachable, Leads, AllIdle, UnreadEvents, DeadEvents; }
    ReportedDead(s, s', b) by { hide Reachable, Leads; }
    assert b !in DeadEvents(s) by { hide Reachable, Leads; }
    hide Reachable, Leads, DeadEvents, UnreadEvents, ReadDrops, ReadTruncs, Sum, TotalOver, AllIdle;
    if |s.acc.counted| < 0x1_0000_0000 && TotalOver(s.acc.dropLog, DeadEvents(s)) == 0 {
      ZeroKept(s.acc.dropLog, Stamp(b, s.sh.drop), DeadEvents(s), UnreadEvents(s'));
      DropsReportedIff(c, s');
    }
    if s.acc.cuts < 0x1_0000_0000 && TotalOver(s.acc.truncLog, DeadEvents(s)) == 0 {
      ZeroKept(s.acc.truncLog, Stamp(b, s.sh.trunc), DeadEvents(s), UnreadEvents(s'));
      TruncsReportedIff(c, s');
    }
  }

  lemma NextNotPlaced(c: Config, s: State)
    requires Reachable(c, s)
    ensures s.pool.next !in s.at.buf
  {
    hide *;
    Families(c, s);
    NextIsNew(s);
  }

  // ---------------------------------------------------------------- without callbacks nothing more is reported

  /** Points that no event reaches while nothing is queued and no callback runs. */
  predicate Eventless(pc: Pc) {
    || pc.Idle? || pc.GetLock? || pc.TryPop? || pc.MarkEarly? || pc.Park? || pc.ParkedIrp? || pc.MarkLate? || pc.Rejected?
    || pc.Reply? || pc.CleanupSwap? || pc.CleanupCancel? || UnloadPc(pc)
  }

  ghost predicate Barren(s: State) {
    s.kern.registered == {} && s.sh.queue == [] && forall t :: t in s.pcs ==> Eventless(s.pcs[t]) && !s.pcs[t].DrainFree?
  }

  /** Still barren, with the same counters. */
  ghost predicate StaysBarren(s: State, s': State) {
    Barren(s') && s'.sh.drop == s.sh.drop && s'.sh.trunc == s.sh.trunc
  }

  lemma BarrenMoves(s: State, s': State, t: Tid)
    requires Barren(s) && Moves(s, s', t) && Eventless(s'.pcs[t]) && !s'.pcs[t].DrainFree?
    requires s'.kern.registered == {} && s'.sh.queue == [] && s'.sh.drop == s.sh.drop && s'.sh.trunc == s.sh.trunc
    ensures StaysBarren(s, s')
  {
    hide Eventless;
  }

  lemma BarrenPart(s: State, t: Tid)
    requires Barren(s) && t in s.pcs
    ensures Eventless(s.pcs[t]) && !s.pcs[t].DrainFree? && s.kern.registered == {} && s.sh.queue == []
  {
    hide Eventless;
  }

  lemma GetStaysBarren(c: Config, s: State, t: Tid, a: GetStep)
    requires Barren(s) && t in s.pcs && GetEnabled(s, t, a)
    ensures StaysBarren(s, DoGet(c, s, t, a))
  {
    hide Barren, StaysBarren, CopyFaults;
    BarrenPart(s, t);
    BarrenMoves(s, DoGet(c, s, t, a), t);
  }

  lemma IrpStaysBarren(s: State, t: Tid, a: IrpStep)
    requires Barren(s) && t in s.pcs && IrpEnabled(s, t, a)
    ensures StaysBarren(s, DoIrp(s, t, a))
  {
    hide Barren, StaysBarren;
    BarrenPart(s, t);
    BarrenMoves(s, DoIrp(s, t, a), t);
  }

  lemma UnloadStaysBarren(s: State, t: Tid, a: UnloadStep)
    requires Barren(s) && t in s.pcs && UnloadEnabled(s, t, a)
    ensures StaysBarren(s, DoUnload(s, t, a))
  {
    hide Barren, StaysBarren, NoneRunning;
    BarrenPart(s, t);
    BarrenMoves(s, DoUnload(s, t, a), t);
  }

  lemma NoProducer(c: Config, s: State, a: Step)
    requires Barren(s) && Enabled(c, s, a)
    ensures !a.Build? && !a.Submit?
  {
    hide Barren, NoneRunning;
    if a.t in s.pcs { BarrenPart(s, a.t); }
  }

  lemma StepStaysBarren(c: Config, s: State, a: Step)
    requires Barren(s) && Enabled(c, s, a)
    ensures StaysBarren(s, Do(c, s, a))
  {
    NoProducer(c, s, a) by { hide *; }
    BarrenQueue(s);
    hide Barren, StaysBarren, GetEnabled, DoGet, IrpEnabled, DoIrp, UnloadEnabled, DoUnload;
    match a
    case Spawn(t) => BarrenMoves(s, Do(c, s, a), t);
    case Get(t, g) => GetStaysBarren(c, s, t, g);
    case Handle(t, h) => IrpStaysBarren(s, t, h);
    case Teardown(t, u) => UnloadStaysBarren(s, t, u);
  }

  lemma BarrenQueue(s: State)
    requires Barren(s)
    ensures s.kern.registered == {} && s.sh.queue == []
  {
  }

  lemma {:induction false} PathStaysBarren(c: Config, states: seq<State>, steps: seq<Step>, k: nat)
    requires IsPath(c, states, steps) && Barren(states[0]) && k <= |steps|
    ensures StaysBarren(states[0], states[k])
  {
    hide Enabled, Do, Barren;
    if k > 0 {
      PathStaysBarren(c, states, steps, k - 1);
      StepStaysBarren(c, states[k - 1], steps[k - 1]);
    }
  }

  lemma LeadsStaysBarren(c: Config, s: State, s': State)
    requires Barren(s) && Leads(c, s, s')
    ensures StaysBarren(s, s')
  {
    hide Enabled, Do, Barren, StaysBarren;
    var states: seq<State>, steps: seq<Step> :| IsPath(c, states, steps) && states[0] == s && states[|steps|] == s';
    PathStaysBarren(c, states, steps, |steps|);
  }

  lemma RestIsBarren(s: State)
    requires AtRest(s) && s.kern.registered == {}
    ensures Barren(s)
  {
  }

  // ---------------------------------------------------------------- both directions

  /** Nothing is left to report: the counters are zero already. */
  lemma NowOrNever(c: Config, s: State)
    requires Reachable(c, s) && AtRest(s)
    ensures |s.acc.counted| < 0x1_0000_0000 && TotalOver(s.acc.dropLog, DeadEvents(s)) == 0 && s.sh.drop == 0 ==> AllDropsRead(s)
    ensures s.acc.cuts < 0x1_0000_0000 && TotalOver(s.acc.truncLog, DeadEvents(s)) == 0 && s.sh.trunc == 0 ==> AllTruncsRead(s)
  {
    RestIsRead(c, s) by { hide Reachable, AllIdle, UnreadEvents, DeadEvents; }
    hide Reachable, DeadEvents, UnreadEvents, ReadDrops, ReadTruncs, Sum, TotalOver, AllIdle;
    TotalZeroIff(s.acc.dropLog, DeadEvents(s));
    TotalZeroIff(s.acc.truncLog, DeadEvents(s));
    if |s.acc.counted| < 0x1_0000_0000 { DropsReportedIff(c, s); }
    if s.acc.cuts < 0x1_0000_0000 { TruncsReportedIff(c, s); }
  }

  /** With no callback left and something in a counter, it is never reported. */
  lemma NeverReported(c: Config, s: State, s': State)
    requires Reachable(c, s) && AtRest(s) && s.kern.registered == {} && Leads(c, s, s')
    ensures s.sh.drop != 0 ==> !AllDropsRead(s')
    ensures s.sh.trunc != 0 ==> !AllTruncsRead(s')
  {
    LeadsReachable(c, s, s') by { hide *; }
    RestIsBarren(s) by { hide Reachable, Leads; }
    LeadsStaysBarren(c, s, s') by { hide *; }
    hide Reachable, Leads, AtRest, Barren, UnreadEvents, ReadDrops, ReadTruncs, Sum, TotalOver;
    if |s'.acc.counted| < 0x1_0000_0000 { DropsReportedIff(c, s'); }
    if s'.acc.cuts < 0x1_0000_0000 { TruncsReportedIff(c, s'); }
  }

  /** No stamp is on a dead event, and what is left in the counter, if anything, has a callback to report it. */
  ghost predicate DropsRecoverable(s: State) {
    TotalOver(s.acc.dropLog, DeadEvents(s)) == 0 && (s.sh.drop == 0 || s.kern.registered != {})
  }

  ghost predicate TruncsRecoverable(s: State) {
    TotalOver(s.acc.truncLog, DeadEvents(s)) == 0 && (s.sh.trunc == 0 || s.kern.registered != {})
  }

  /** At rest, with or without a parked request, the drop counts the agent reads can still come to add up to
      all losses if and only if every stamp on a dead event is zero and what is left in the counter, if
      anything, has a callback to report it. */
  lemma DropsRecoverableIff(c: Config, s: State)
    requires Reachable(c, s) && AtRest(s) && |s.acc.counted| < 0x1_0000_0000
    ensures (exists s' :: Leads(c, s, s') && AllDropsRead(s'))
            <==> DropsRecoverable(s)
  {
    Reportable(c, s) by { hide *; }
    hide Reachable, Leads, DeadEvents, TotalOver, AtRest;
    forall s' | Leads(c, s, s') && AllDropsRead(s')
      ensures DropsRecoverable(s)
    {
      LostForEver(c, s, s');
      if s.kern.registered == {} { NeverReported(c, s, s'); }
    }
  }

  /** The same for truncation counts and cuts. */
  lemma TruncsRecoverableIff(c: Config, s: State)
    requires Reachable(c, s) && AtRest(s) && s.acc.cuts < 0x1_0000_0000
    ensures (exists s' :: Leads(c, s, s') && AllTruncsRead(s'))
            <==> TruncsRecoverable(s)
  {
    Reportable(c, s) by { hide *; }
    hide Reachable, Leads, DeadEvents, TotalOver, AtRest;
    forall s' | Leads(c, s, s') && AllTruncsRead(s')
      ensures TruncsRecoverable(s)
    {
      LostForEver(c, s, s');
      if s.kern.registered == {} { NeverReported(c, s, s'); }
    }
  }

  lemma Reportable(c: Config, s: State)
    requires Reachable(c, s) && AtRest(s)
    ensures |s.acc.counted| < 0x1_0000_0000 && DropsRecoverable(s) ==> exists s' :: Leads(c, s, s') && AllDropsRead(s')
    ensures s.acc.cuts < 0x1_0000_0000 && TruncsRecoverable(s) ==> exists s' :: Leads(c, s, s') && AllTruncsRead(s')
  {
    RestIsLoaded(c, s) by { hide Reachable; }
    hide Reachable, Leads, DeadEvents, TotalOver, AtRest, ReportedOn, AllDropsRead, AllTruncsRead;
    NextNotPlaced(c, s);
    LeadsNowhere(c, s);
    NowOrNever(c, s);
    if s.kern.registered != {} {
      var s1, b := ReportRun(c, s);
      AfterReport(c, s, s1, b);
    }
  }
}
