/** From allocation to submission: what a producer's own writes leave in its block, whatever the other
    threads do meanwhile. */
module Production {
  import opened Wire
  import opened Protocol
  import opened Buffers
  import opened Fates
  import opened KernelStrings
  import opened Contents
  import opened Stamps
  import opened Invariant

  // ---------------------------------------------------------------- other threads leave a held block alone

  /** Thread `t`, its block `b` and the header recorded for it are as before. */
  ghost predicate Untouched(s: State, s': State, t: Tid, b: Buf) {
    && t in s.pcs && t in s'.pcs && s'.pcs[t] == s.pcs[t]
    && b in s.pool.mem && b in s'.pool.mem && s'.pool.mem[b] == s.pool.mem[b]
    && (b in s.rec.headers ==> b in s'.rec.headers && s'.rec.headers[b] == s.rec.headers[b])
  }

  /** The block thread `t` holds is neither the next one, nor queued first, nor held by `u`. */
  lemma Apart(s: State, t: Tid, u: Tid)
    requires BufInv(s) && t in s.pcs && u in s.pcs && t != u && BufOf(s.pcs[t]).Some?
    ensures var b := BufOf(s.pcs[t]).value.data;
            && b in s.pool.mem && b != s.pool.next
            && (s.sh.queue != [] ==> s.sh.queue[0].data != b)
            && (BufOf(s.pcs[u]).Some? ==> BufOf(s.pcs[u]).value.data != b)
  {
    OwnBlock(s, t);
    NextIsNew(s);
    if s.sh.queue != [] { HeadBlock(s); }
    if BufOf(s.pcs[u]).Some? { HeldApart(s, t, u); }
    hide BufInv, BufOf;
  }

  lemma BuildLeaves(s: State, t: Tid, u: Tid, a: BuildStep)
    requires BufInv(s) && t in s.pcs && BufOf(s.pcs[t]).Some? && t != u && u in s.pcs && BuildEnabled(s, u, a)
    ensures Untouched(s, DoBuild(s, u, a), t, BufOf(s.pcs[t]).value.data)
  {
    Apart(s, t, u);
    hide BufInv, EncodeHeader, Splice;
  }

  lemma SubmitLeaves(c: Config, s: State, t: Tid, u: Tid, a: SubmitStep)
    requires BufInv(s) && t in s.pcs && BufOf(s.pcs[t]).Some? && t != u && u in s.pcs && SubmitEnabled(c, s, u, a)
    ensures Untouched(s, DoSubmit(c, s, u, a), t, BufOf(s.pcs[t]).value.data)
  {
    Apart(s, t, u);
    hide BufInv, CopyFaults, TouchFaults;
  }

  lemma GetLeaves(c: Config, s: State, t: Tid, u: Tid, a: GetStep)
    requires BufInv(s) && t in s.pcs && BufOf(s.pcs[t]).Some? && t != u && u in s.pcs && GetEnabled(s, u, a)
    ensures Untouched(s, DoGet(c, s, u, a), t, BufOf(s.pcs[t]).value.data)
  {
    Apart(s, t, u);
    hide BufInv, CopyFaults;
  }

  lemma IrpLeaves(s: State, t: Tid, u: Tid, a: IrpStep)
    requires BufInv(s) && t in s.pcs && BufOf(s.pcs[t]).Some? && t != u && u in s.pcs && IrpEnabled(s, u, a)
    ensures Untouched(s, DoIrp(s, u, a), t, BufOf(s.pcs[t]).value.data)
  {
    Apart(s, t, u);
    hide BufInv;
  }

  lemma UnloadLeaves(s: State, t: Tid, u: Tid, a: UnloadStep)
    requires BufInv(s) && t in s.pcs && BufOf(s.pcs[t]).Some? && t != u && u in s.pcs && UnloadEnabled(s, u, a)
    ensures Untouched(s, DoUnload(s, u, a), t, BufOf(s.pcs[t]).value.data)
  {
    Apart(s, t, u);
    hide BufInv, NoneRunning;
  }

  /** No step of another thread touches the block a thread holds. */
  lemma OthersLeaveBlock(c: Config, s: State, t: Tid, a: Step)
    requires BufInv(s) && t in s.pcs && BufOf(s.pcs[t]).Some? && Enabled(c, s, a) && a.t != t
    ensures Untouched(s, Do(c, s, a), t, BufOf(s.pcs[t]).value.data)
  {
    hide BufInv, BufOf, BuildEnabled, DoBuild, SubmitEnabled, DoSubmit, GetEnabled, DoGet, IrpEnabled, DoIrp, UnloadEnabled,
         DoUnload;
    match a
    case Spawn(_) => OwnBlock(s, t);
    case Build(u, b) => BuildLeaves(s, t, u, b);
    case Submit(u, b) => SubmitLeaves(c, s, t, u, b);
    case Get(u, g) => GetLeaves(c, s, t, u, g);
    case Handle(u, h) => IrpLeaves(s, t, u, h);
    case Teardown(u, x) => UnloadLeaves(s, t, u, x);
  }

  // ---------------------------------------------------------------- records of submitted events stay

  ghost predicate RecordKept(s: State, s': State, b: Buf) {
    && b in s.rec.built && b in s'.rec.built && s'.rec.built[b] == s.rec.built[b]
    && b in s.rec.headers && b in s'.rec.headers && s'.rec.headers[b] == s.rec.headers[b]
  }

  lemma BuildKeepsRecord(s: State, t: Tid, a: BuildStep, b: Buf)
    requires BufInv(s) && StageInv(s) && b in s.rec.built && b in s.rec.headers && t in s.pcs && BuildEnabled(s, t, a)
    ensures RecordKept(s, DoBuild(s, t, a), b)
  {
    hide BufInv, StageInv, EncodeHeader;
    if a.DoStampTrunc? { AtStage(s, t); }
  }

  lemma SubmitKeepsRecord(c: Config, s: State, t: Tid, a: SubmitStep, b: Buf)
    requires BufInv(s) && StageInv(s) && b in s.rec.built && b in s.rec.headers && t in s.pcs && SubmitEnabled(c, s, t, a)
    ensures RecordKept(s, DoSubmit(c, s, t, a), b)
  {
    hide BufInv, StageInv, CopyFaults, TouchFaults;
    if a.SubmitLock? { AtStage(s, t); }
  }

  lemma OthersKeepRecord(c: Config, s: State, a: Step, b: Buf)
    requires b in s.rec.built && b in s.rec.headers && Enabled(c, s, a) && !a.Build? && !a.Submit?
    ensures RecordKept(s, Do(c, s, a), b)
  {
    hide CopyFaults, NoneRunning;
    match a
    case Spawn(_) =>
    case Get(_, _) =>
    case Handle(_, _) =>
    case Teardown(_, _) =>
  }

  lemma StepKeepsRecord(c: Config, s: State, a: Step, b: Buf)
    requires BufInv(s) && StageInv(s) && b in s.rec.built && b in s.rec.headers && Enabled(c, s, a)
    ensures RecordKept(s, Do(c, s, a), b)
  {
    hide BufInv, StageInv, BuildEnabled, DoBuild, SubmitEnabled, DoSubmit, GetEnabled, DoGet, IrpEnabled, DoIrp, UnloadEnabled,
         DoUnload, RecordKept;
    match a
    case Build(t, x) => BuildKeepsRecord(s, t, x, b);
    case Submit(t, x) => SubmitKeepsRecord(c, s, t, x, b);
    case _ => OthersKeepRecord(c, s, a, b);
  }

  lemma StatePart(c: Config, s: State)
    requires Inv(c, s)
    ensures BufInv(s) && StageInv(s)
  {
    hide BufInv, StageInv;
  }

  lemma {:induction false} RunKeepsRecord(c: Config, states: seq<State>, steps: seq<Step>, i: nat, k: nat, b: Buf)
    requires IsRun(c, states, steps) && i <= k <= |steps| && b in states[i].rec.built && b in states[i].rec.headers
    ensures RecordKept(states[i], states[k], b)
  {
    hide Enabled, Do, Init, Inv;
    if i < k {
      RunKeepsRecord(c, states, steps, i, k - 1, b);
      RunHolds(c, states, steps, k - 1);
      StatePart(c, states[k - 1]);
      StepKeepsRecord(c, states[k - 1], steps[k - 1], b);
    }
  }

  // ---------------------------------------------------------------- the producer's own writes

  datatype Write = Write(off: nat, data: seq<byte>)

  function ApplyOne(m: seq<byte>, w: Write): (r: seq<byte>)
    ensures |r| == |m|
  {
    if w.off + |w.data| <= |m| then Splice(m, w.off, w.data) else m
  }

  /** `m` after the writes, first to last. */
  function Applied(m: seq<byte>, ws: seq<Write>): (r: seq<byte>)
    ensures |r| == |m|
  {
    if ws == [] then m else ApplyOne(Applied(m, ws[..|ws| - 1]), ws[|ws| - 1])
  }

  function WriteOf(a: Step, t: Tid): seq<Write> {
    if a.Build? && a.t == t && a.build.WriteField? then [Write(a.build.off, a.build.data)] else []
  }

  /** The writes of thread `t` among steps i, ..., k - 1. */
  function WritesOf(steps: seq<Step>, i: nat, k: nat, t: Tid): seq<Write>
    requires k <= |steps|
  {
    if k <= i then [] else WritesOf(steps, i, k - 1, t) + WriteOf(steps[k - 1], t)
  }

  function CopyOf(a: Step, t: Tid): seq<Copy> {
    if a.Build? && a.t == t && a.build.BoundedCopy? then [Copy(a.build.units, a.build.room)] else []
  }

  /** The bounded copies of thread `t` among steps i, ..., k - 1. */
  function CopiesOf(steps: seq<Step>, i: nat, k: nat, t: Tid): seq<Copy>
    requires k <= |steps|
  {
    if k <= i then [] else CopiesOf(steps, i, k - 1, t) + CopyOf(steps[k - 1], t)
  }

  /** The block right after the stamp. */
  function Stamped(k: EventKind, h: Header): seq<byte> { Splice(Zeros(EventSize(k)), 0, EncodeHeader(h)) }

  /** How far thread `t` is with the event of kind `k` in block `b`, having made the writes `ws`. */
  ghost predicate Making(s: State, t: Tid, b: Buf, k: EventKind, ws: seq<Write>) {
    && t in s.pcs && b in s.pool.mem
    && var ev := Slot(b, EventSize(k));
    && (|| ((s.pcs[t] == StampDrop(ev, k) || (s.pcs[t].StampTrunc? && s.pcs[t].ev == ev && s.pcs[t].kind == k))
            && s.pool.mem[b] == Zeros(EventSize(k)) && ws == [])
        || (s.pcs[t] == Filling(ev) && b in s.rec.headers && HeaderFits(s.rec.headers[b], k)
            && s.pool.mem[b] == Applied(Stamped(k, s.rec.headers[b]), ws)))
  }

  lemma AllocMakes(s: State, t: Tid, k: EventKind)
    requires t in s.pcs && BuildEnabled(s, t, AllocOk(k))
    ensures Making(DoBuild(s, t, AllocOk(k)), t, s.pool.next, k, [])
  {
  }

  lemma MakerHolds(s: State, t: Tid, b: Buf, k: EventKind, ws: seq<Write>)
    requires Making(s, t, b, k, ws)
    ensures t in s.pcs && BufOf(s.pcs[t]) == Some(Slot(b, EventSize(k)))
  {
    hide Stamped, Applied;
  }

  lemma MakingUntouched(s: State, s': State, t: Tid, b: Buf, k: EventKind, ws: seq<Write>)
    requires Making(s, t, b, k, ws) && Untouched(s, s', t, b)
    ensures Making(s', t, b, k, ws)
  {
    hide Stamped, Applied;
  }

  lemma AppliedMore(m: seq<byte>, ws: seq<Write>, w: Write)
    ensures Applied(m, ws + [w]) == ApplyOne(Applied(m, ws), w)
  {
    assert (ws + [w])[..|ws|] == ws;
  }

  lemma MakerStamps(s: State, t: Tid, a: BuildStep, b: Buf, k: EventKind, ws: seq<Write>)
    requires Making(s, t, b, k, ws) && BuildEnabled(s, t, a) && a.DoStampTrunc?
    ensures Making(DoBuild(s, t, a), t, b, k, ws)
  {
    hide EncodeHeader, Splice, Applied, TypeCode, EventSize;
    NoWrites(Stamped(k, HeaderOf(s, s.pcs[t], a.timestamp)));
  }

  lemma MakerWrites(s: State, t: Tid, a: BuildStep, b: Buf, k: EventKind, ws: seq<Write>)
    requires Making(s, t, b, k, ws) && BuildEnabled(s, t, a) && a.WriteField?
    ensures Making(DoBuild(s, t, a), t, b, k, ws + [Write(a.off, a.data)])
  {
    hide Splice, Applied, Stamped, TypeCode;
    AppliedMore(Stamped(k, s.rec.headers[b]), ws, Write(a.off, a.data));
    StampedSize(k, s.rec.headers[b]);
  }

  lemma StampedSize(k: EventKind, h: Header)
    ensures |Stamped(k, h)| == EventSize(k)
  {
  }

  lemma MakerStays(s: State, t: Tid, a: BuildStep, b: Buf, k: EventKind, ws: seq<Write>)
    requires Making(s, t, b, k, ws) && BuildEnabled(s, t, a) && !a.DoStampTrunc? && !a.WriteField?
    ensures Making(DoBuild(s, t, a), t, b, k, ws)
  {
    hide Applied, Stamped, TypeCode, HeaderFits;
  }

  /** The producer's own step, short of submission. */
  lemma MakerStep(s: State, t: Tid, a: BuildStep, b: Buf, k: EventKind, ws: seq<Write>)
    requires Making(s, t, b, k, ws) && BuildEnabled(s, t, a)
    ensures Making(DoBuild(s, t, a), t, b, k, ws + WriteOf(Build(t, a), t))
  {
    hide Making, BuildEnabled, DoBuild;
    assert ws + [] == ws;
    if a.DoStampTrunc? {
      MakerStamps(s, t, a, b, k, ws);
    } else if a.WriteField? {
      MakerWrites(s, t, a, b, k, ws);
    } else {
      MakerStays(s, t, a, b, k, ws);
    }
  }

  lemma NoWrites(m: seq<byte>)
    ensures Applied(m, []) == m
  {
  }

  /** Thread `t` allocates at step i and submits at step j, not before. */
  ghost predicate Produces(steps: seq<Step>, i: nat, j: nat, t: Tid, k: EventKind) {
    && i < j < |steps| && steps[i] == Build(t, AllocOk(k)) && steps[j] == Submit(t, SubmitLock)
    && forall m :: i < m < j ==> steps[m] != Submit(t, SubmitLock)
  }

  lemma OnlyBuilds(c: Config, s: State, a: Step, b: Buf, k: EventKind, ws: seq<Write>)
    requires Making(s, a.t, b, k, ws) && Enabled(c, s, a) && a != Submit(a.t, SubmitLock)
    ensures a.Build?
  {
    hide NoneRunning, Applied, Stamped;
  }

  lemma MakingStep(c: Config, s: State, a: Step, t: Tid, b: Buf, k: EventKind, ws: seq<Write>)
    requires BufInv(s) && Making(s, t, b, k, ws) && Enabled(c, s, a) && a != Submit(t, SubmitLock)
    ensures Making(Do(c, s, a), t, b, k, ws + WriteOf(a, t))
  {
    hide BufInv, Making, BuildEnabled, DoBuild, BufOf;
    if a.t == t {
      OnlyBuilds(c, s, a, b, k, ws);
      MakerStep(s, t, a.build, b, k, ws);
    } else {
      MakerHolds(s, t, b, k, ws);
      hide Enabled, Do;
      OthersLeaveBlock(c, s, t, a);
      MakingUntouched(s, Do(c, s, a), t, b, k, ws);
      assert ws + [] == ws;
    }
  }

  lemma {:induction false} MakingRun(
    c: Config, states: seq<State>, steps: seq<Step>, i: nat, j: nat, m: nat, t: Tid, k: EventKind)
    requires IsRun(c, states, steps) && Produces(steps, i, j, t, k) && i < m <= j
    ensures Making(states[m], t, states[i].pool.next, k, WritesOf(steps, i + 1, m, t))
  {
    hide Do, Enabled, Init, Inv, Making;
    if m == i + 1 {
      AllocStep(c, states[i], t, k);
    } else {
      MakingRun(c, states, steps, i, j, m - 1, t, k);
      RunHolds(c, states, steps, m - 1);
      StatePart(c, states[m - 1]);
      MakingStep(c, states[m - 1], steps[m - 1], t, states[i].pool.next, k, WritesOf(steps, i + 1, m - 1, t));
    }
  }

  lemma AllocStep(c: Config, s: State, t: Tid, k: EventKind)
    requires Enabled(c, s, Build(t, AllocOk(k)))
    ensures Making(Do(c, s, Build(t, AllocOk(k))), t, s.pool.next, k, [])
  {
    hide BuildEnabled, DoBuild, Making;
    AllocMakes(s, t, k);
  }

  /** The record of an event of kind `k` built with the writes `ws`. */
  ghost predicate Recorded(s: State, b: Buf, k: EventKind, ws: seq<Write>) {
    && b in s.rec.built && b in s.rec.headers && HeaderFits(s.rec.headers[b], k)
    && s.rec.built[b] == Applied(Stamped(k, s.rec.headers[b]), ws)
  }

  lemma SubmitRecords(c: Config, s: State, t: Tid, b: Buf, k: EventKind, ws: seq<Write>)
    requires Making(s, t, b, k, ws) && Enabled(c, s, Submit(t, SubmitLock))
    ensures Recorded(Do(c, s, Submit(t, SubmitLock)), b, k, ws)
  {
    hide Applied, Stamped;
  }

  /** What a producer submits: in every run, whatever the other threads do between its allocation and its
      submission and ever after, the submitted bytes are its zeroed block with the header it stamped and
      its own writes applied, in order. */
  lemma ProducedBytes(c: Config, states: seq<State>, steps: seq<Step>, i: nat, j: nat, m: nat, t: Tid, k: EventKind)
    requires IsRun(c, states, steps) && Produces(steps, i, j, t, k) && j < m <= |steps|
    ensures Recorded(states[m], states[i].pool.next, k, WritesOf(steps, i + 1, j, t))
  {
    hide Do, Enabled, Init, Making, Applied, Stamped;
    MakingRun(c, states, steps, i, j, j, t, k);
    SubmitRecords(c, states[j], t, states[i].pool.next, k, WritesOf(steps, i + 1, j, t));
    RunKeepsRecord(c, states, steps, j + 1, m, states[i].pool.next);
  }
}
