/** Loss and truncation accounting. */
module Accounting {
  import opened Wire
  import opened Protocol
  import opened Buffers

  /** Sum of the stamps in a log. */
  function Total(log: seq<Stamp>): nat {
    if log == [] then 0 else Total(log[..|log| - 1]) + log[|log| - 1].n
  }

  lemma TotalAppend(log: seq<Stamp>, x: Stamp)
    ensures Total(log + [x]) == Total(log) + x.n
  {
    assert (log + [x])[..|log|] == log;
  }

  /** The wrapping counter and the stamps taken account for `events` increments, up to whole turns of
      the counter. */
  predicate Accounted(counter: u32, log: seq<Stamp>, events: nat) {
    counter + Total(log) <= events && (events - (counter + Total(log))) % 0x1_0000_0000 == 0
  }

  lemma Increment(counter: u32, log: seq<Stamp>, events: nat)
    requires Accounted(counter, log, events)
    ensures Accounted(Add32(counter, 1), log, events + 1)
  {
  }

  lemma SwapToZero(counter: u32, log: seq<Stamp>, events: nat, b: Buf)
    requires Accounted(counter, log, events)
    ensures Accounted(0, log + [Stamp(b, counter)], events)
  {
    TotalAppend(log, Stamp(b, counter));
  }

  predicate Lost(p: BufPlace) { p.OutOfMemory? || p.Evicted? || p.Refused? }

  /** The loss a thread is about to add to the counter. */
  function Owes(pc: Pc): Option<Buf> {
    match pc
    case CountOom(b) => Some(b)
    case CountEviction(_, b) => Some(b)
    case CountRefusal(gone, _) => Some(gone.data)
    case _ => None
  }

  /** Every loss is either counted or about to be counted by one thread; the counter and the stamps
      agree with the losses counted. */
  ghost predicate LossInv(s: State) {
    && (forall b :: b in s.at.buf ==> (Lost(s.at.buf[b]) <==> b in s.acc.counted || b in s.acc.uncounted))
    && (forall b :: b in s.acc.counted ==> b in s.at.buf && b !in s.acc.uncounted)
    && (forall b :: b in s.acc.uncounted ==>
          b in s.at.buf && s.acc.uncounted[b] in s.pcs && Owes(s.pcs[s.acc.uncounted[b]]) == Some(b))
    && (forall t :: t in s.pcs && Owes(s.pcs[t]).Some? ==>
          Owes(s.pcs[t]).value in s.acc.uncounted && s.acc.uncounted[Owes(s.pcs[t]).value] == t)
  }

  ghost predicate CountInv(s: State) {
    && Accounted(s.sh.drop, s.acc.dropLog, |s.acc.counted|)
    && Accounted(s.sh.trunc, s.acc.truncLog, s.acc.cuts)
  }

  // ---------------------------------------------------------------- losses

  lemma SameLosses(s: State, s': State, t: Tid)
    requires LossInv(s) && Moves(s, s', t)
    requires Owes(s'.pcs[t]) == (if t in s.pcs then Owes(s.pcs[t]) else None)
    requires s'.acc.counted == s.acc.counted && s'.acc.uncounted == s.acc.uncounted
    requires forall b :: b in s'.at.buf <==> b in s.at.buf
    requires forall b :: b in s.at.buf ==> Lost(s'.at.buf[b]) == Lost(s.at.buf[b])
    ensures LossInv(s')
  {
    hide Owes, Lost;
  }

  /** One event, not lost before, moves to a place that is no loss. */
  lemma NoLoss(s: State, s': State, t: Tid, b: Buf, place: BufPlace)
    requires LossInv(s) && Moves(s, s', t) && t in s.pcs && !Lost(place)
    requires b in s.at.buf ==> !Lost(s.at.buf[b])
    requires Owes(s'.pcs[t]) == Owes(s.pcs[t])
    requires s'.acc.counted == s.acc.counted && s'.acc.uncounted == s.acc.uncounted
    requires s'.at.buf == s.at.buf[b := place]
    ensures LossInv(s')
  {
    hide Owes, Lost;
  }

  /** One event becomes a loss that thread `t` goes on to count. */
  lemma NewLoss(s: State, s': State, t: Tid, b: Buf, place: BufPlace)
    requires LossInv(s) && Moves(s, s', t) && t in s.pcs && Lost(place)
    requires b in s.at.buf ==> !Lost(s.at.buf[b])
    requires Owes(s.pcs[t]) == None && Owes(s'.pcs[t]) == Some(b)
    requires s'.acc.counted == s.acc.counted && s'.acc.uncounted == s.acc.uncounted[b := t]
    requires s'.at.buf == s.at.buf[b := place]
    ensures LossInv(s')
  {
    hide Owes, Lost;
  }

  lemma Counted(s: State, s': State, t: Tid)
    requires LossInv(s) && Moves(s, s', t) && t in s.pcs && Owes(s.pcs[t]).Some? && Owes(s'.pcs[t]) == None
    requires var b := Owes(s.pcs[t]).value;
             s'.acc.counted == s.acc.counted + {b} && s'.acc.uncounted == s.acc.uncounted - {b}
    requires s'.at.buf == s.at.buf
    ensures LossInv(s') && Owes(s.pcs[t]).value !in s.acc.counted
  {
    hide Owes, Lost;
  }

  lemma HeldIsNoLoss(s: State, t: Tid)
    requires BufInv(s) && t in s.pcs && BufOf(s.pcs[t]).Some?
    ensures var b := BufOf(s.pcs[t]).value.data; b in s.at.buf && !Lost(s.at.buf[b])
  {
    assert BlockOf(s, ByThread(t)) == BufOf(s.pcs[t]);
  }

  lemma QueuedIsNoLoss(s: State)
    requires BufInv(s) && s.sh.queue != []
    ensures s.sh.queue[0].data in s.at.buf && !Lost(s.at.buf[s.sh.queue[0].data])
  {
    assert BlockOf(s, ByRing(s.at.dequeued)) == Some(s.sh.queue[0]);
  }

  lemma BuildKeepsLosses(s: State, t: Tid, a: BuildStep)
    requires LossInv(s) && BufInv(s) && t in s.pcs && BuildEnabled(s, t, a)
    ensures LossInv(DoBuild(s, t, a))
  {
    hide LossInv, BufInv, EncodeHeader;
    NextIsNew(s);
    var s' := DoBuild(s, t, a);
    match a
    case AllocFail => NewLoss(s, s', t, s.pool.next, OutOfMemory);
    case AllocOk(kind) => NoLoss(s, s', t, s.pool.next, Owned(ByThread(t)));
    case DoCountOom => Counted(s, s', t);
    case _ => SameLosses(s, s', t);
  }

  lemma SubmitKeepsLosses(c: Config, s: State, t: Tid, a: SubmitStep)
    requires LossInv(s) && BufInv(s) && t in s.pcs && SubmitEnabled(c, s, t, a)
    ensures LossInv(DoSubmit(c, s, t, a))
  {
    hide LossInv, BufInv, CopyFaults, TouchFaults;
    var s' := DoSubmit(c, s, t, a);
    match a
    case Evict => QueuedIsNoLoss(s); NewLoss(s, s', t, s.sh.queue[0].data, Evicted);
    case DoCountEviction => Counted(s, s', t);
    case Enqueue =>
      HeldIsNoLoss(s, t);
      NoLoss(s, s', t, s.pcs[t].ev.data, Owned(ByRing(s.at.dequeued + |s.sh.queue|)));
    case _ => SameLosses(s, s', t);
  }

  lemma GetKeepsLosses(c: Config, s: State, t: Tid, a: GetStep)
    requires LossInv(s) && BufInv(s) && t in s.pcs && GetEnabled(s, t, a)
    ensures LossInv(DoGet(c, s, t, a))
  {
    hide LossInv, BufInv, CopyFaults;
    var s' := DoGet(c, s, t, a);
    if a.Pop? {
      QueuedIsNoLoss(s);
      NoLoss(s, s', t, s.sh.queue[0].data, Owned(ByThread(t)));
    } else {
      SameLosses(s, s', t);
    }
  }

  lemma IrpKeepsLosses(s: State, t: Tid, a: IrpStep)
    requires LossInv(s) && BufInv(s) && t in s.pcs && IrpEnabled(s, t, a)
    ensures LossInv(DoIrp(s, t, a))
  {
    hide LossInv, BufInv;
    var s' := DoIrp(s, t, a);
    match a
    case SettleFree =>
      HeldIsNoLoss(s, t);
      if s.pcs[t].fits { NoLoss(s, s', t, s.pcs[t].ev.data, Delivered(s.pcs[t].irp)); }
      else { NewLoss(s, s', t, s.pcs[t].ev.data, Refused(s.pcs[t].irp)); }
    case DoCountRefusal => Counted(s, s', t);
    case _ => SameLosses(s, s', t);
  }

  lemma UnloadKeepsLosses(s: State, t: Tid, a: UnloadStep)
    requires LossInv(s) && BufInv(s) && t in s.pcs && UnloadEnabled(s, t, a)
    ensures LossInv(DoUnload(s, t, a))
  {
    hide LossInv, BufInv, NoneRunning;
    var s' := DoUnload(s, t, a);
    match a
    case DrainPop => QueuedIsNoLoss(s); NoLoss(s, s', t, s.sh.queue[0].data, Owned(ByThread(t)));
    case DoDrainFree => HeldIsNoLoss(s, t); NoLoss(s, s', t, s.pcs[t].ev.data, Drained);
    case _ => SameLosses(s, s', t);
  }

  // ---------------------------------------------------------------- counters

  lemma CountedOnce(s: State, b: Buf)
    requires CountInv(s) && b !in s.acc.counted
    ensures CountInv(CountLoss(s, b))
  {
    hide Accounted;
    Increment(s.sh.drop, s.acc.dropLog, |s.acc.counted|);
  }

  lemma OwedIsUncounted(s: State, t: Tid)
    requires LossInv(s) && t in s.pcs && Owes(s.pcs[t]).Some?
    ensures Owes(s.pcs[t]).value !in s.acc.counted
  {
    hide Lost;
  }

  lemma BuildKeepsCounts(s: State, t: Tid, a: BuildStep)
    requires CountInv(s) && LossInv(s) && t in s.pcs && BuildEnabled(s, t, a)
    ensures CountInv(DoBuild(s, t, a))
  {
    hide LossInv, Accounted, EncodeHeader;
    match a
    case DoCountOom => OwedIsUncounted(s, t); CountedOnce(s, s.pcs[t].lost);
    case BoundedCopy(_, _) => Increment(s.sh.trunc, s.acc.truncLog, s.acc.cuts);
    case DoStampDrop => SwapToZero(s.sh.drop, s.acc.dropLog, |s.acc.counted|, s.pcs[t].ev.data);
    case DoStampTrunc(_) => SwapToZero(s.sh.trunc, s.acc.truncLog, s.acc.cuts, s.pcs[t].ev.data);
    case _ =>
  }

  lemma SubmitKeepsCounts(c: Config, s: State, t: Tid, a: SubmitStep)
    requires CountInv(s) && LossInv(s) && t in s.pcs && SubmitEnabled(c, s, t, a)
    ensures CountInv(DoSubmit(c, s, t, a))
  {
    hide LossInv, Accounted, CopyFaults, TouchFaults;
    if a.DoCountEviction? {
      OwedIsUncounted(s, t);
      CountedOnce(s, s.pcs[t].lost);
    }
  }

  lemma GetKeepsCounts(c: Config, s: State, t: Tid, a: GetStep)
    requires CountInv(s) && t in s.pcs && GetEnabled(s, t, a)
    ensures CountInv(DoGet(c, s, t, a))
  {
    hide Accounted, CopyFaults;
  }

  lemma IrpKeepsCounts(s: State, t: Tid, a: IrpStep)
    requires CountInv(s) && LossInv(s) && t in s.pcs && IrpEnabled(s, t, a)
    ensures CountInv(DoIrp(s, t, a))
  {
    hide LossInv, Accounted;
    if a.DoCountRefusal? {
      OwedIsUncounted(s, t);
      CountedOnce(s, s.pcs[t].gone.data);
    }
  }

  lemma UnloadKeepsCounts(s: State, t: Tid, a: UnloadStep)
    requires CountInv(s) && t in s.pcs && UnloadEnabled(s, t, a)
    ensures CountInv(DoUnload(s, t, a))
  {
    hide Accounted, NoneRunning;
  }
}
