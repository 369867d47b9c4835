/** Ownership of pool blocks: every event is at all times in exactly one place, and the live blocks are
    exactly those that one thread or one ring position owns. */
module Buffers {
  import opened Wire
  import opened Protocol

  /** The pool block a thread owns at a program point. */
  function BufOf(pc: Pc): Option<Slot> {
    match pc
    case StampDrop(ev, _) => Some(ev)
    case StampTrunc(ev, _, _) => Some(ev)
    case Filling(ev) => Some(ev)
    case SwapPending(ev) => Some(ev)
    case HavePending(ev, _) => Some(ev)
    case Decided(ev, _, _) => Some(ev)
    case Pushing(ev) => Some(ev)
    case CountEviction(ev, _) => Some(ev)
    case Settle(ev, _, _) => Some(ev)
    case Popped(ev, _) => Some(ev)
    case Checking(ev, _) => Some(ev)
    case DrainFree(ev) => Some(ev)
    case _ => None
  }

  /** The block an owner holds. */
  function BlockOf(s: State, o: Owner): Option<Slot> {
    match o
    case ByThread(t) => if t in s.pcs then BufOf(s.pcs[t]) else None
    case ByRing(n) =>
      if s.at.dequeued <= n < s.at.dequeued + |s.sh.queue| then Some(s.sh.queue[n - s.at.dequeued]) else None
  }

  predicate EventLength(n: nat) { HEADER_SIZE < n <= LARGEST_EVENT }

  predicate SlotOk(s: State, ev: Slot) {
    ev.data in s.pool.mem && |s.pool.mem[ev.data]| == ev.size && EventLength(ev.size)
  }

  /** Owners and places agree in both directions; calls of `alloc_event` are numbered from 0; the live
      blocks are the owned ones. */
  ghost predicate BufInv(s: State) {
    && (forall o :: BlockOf(s, o).Some? ==>
          var ev := BlockOf(s, o).value;
          SlotOk(s, ev) && ev.data in s.at.buf && s.at.buf[ev.data] == Owned(o))
    && (forall b :: b in s.at.buf && s.at.buf[b].Owned? ==>
          var ev := BlockOf(s, s.at.buf[b].owner);
          ev.Some? && ev.value.data == b)
    && (forall b: Buf :: b in s.at.buf <==> b < s.pool.next)
    && (forall b :: b in s.pool.mem <==> b in s.at.buf && s.at.buf[b].Owned?)
  }

  /** The next call of `alloc_event` is about a new event. */
  lemma NextIsNew(s: State)
    requires BufInv(s)
    ensures s.pool.next !in s.at.buf
  {
  }

  // ---------------------------------------------------------------- the moves of a block

  ghost predicate OnlyBlocks(s: State, s': State, o1: Owner, o2: Owner) {
    forall o :: o != o1 && o != o2 ==> BlockOf(s', o) == BlockOf(s, o)
  }

  lemma BlockStays(s: State, s': State)
    requires BufInv(s) && (forall o :: BlockOf(s', o) == BlockOf(s, o))
    requires s'.at.buf == s.at.buf && s'.pool.next == s.pool.next
    requires forall b :: b in s'.pool.mem <==> b in s.pool.mem
    requires forall b :: b in s.pool.mem ==> |s'.pool.mem[b]| == |s.pool.mem[b]|
    ensures BufInv(s')
  {
    hide BlockOf;
  }

  lemma BlockPasses(s: State, s': State, o: Owner, o': Owner)
    requires BufInv(s) && OnlyBlocks(s, s', o, o') && o != o'
    requires BlockOf(s, o).Some? && BlockOf(s, o') == None && BlockOf(s', o) == None && BlockOf(s', o') == BlockOf(s, o)
    requires s'.at.buf == s.at.buf[BlockOf(s, o).value.data := Owned(o')] && s'.pool == s.pool
    ensures BufInv(s')
  {
    hide BlockOf;
  }

  lemma BlockEnters(s: State, s': State, o: Owner, n: nat)
    requires BufInv(s) && OnlyBlocks(s, s', o, o) && EventLength(n)
    requires BlockOf(s, o) == None && BlockOf(s', o) == Some(Slot(s.pool.next, n))
    requires s'.at.buf == s.at.buf[s.pool.next := Owned(o)]
    requires s'.pool == Pool(s.pool.next + 1, s.pool.mem[s.pool.next := Zeros(n)])
    ensures BufInv(s')
  {
    hide BlockOf;
  }

  lemma BlockDenied(s: State, s': State)
    requires BufInv(s) && (forall o :: BlockOf(s', o) == BlockOf(s, o))
    requires s'.at.buf == s.at.buf[s.pool.next := OutOfMemory] && s'.pool == s.pool.(next := s.pool.next + 1)
    ensures BufInv(s')
  {
    hide BlockOf;
  }

  lemma BlockLeaves(s: State, s': State, o: Owner, place: BufPlace)
    requires BufInv(s) && OnlyBlocks(s, s', o, o) && !place.Owned?
    requires BlockOf(s, o).Some? && BlockOf(s', o) == None
    requires s'.at.buf == s.at.buf[BlockOf(s, o).value.data := place]
    requires s'.pool == s.pool.(mem := s.pool.mem - {BlockOf(s, o).value.data})
    ensures BufInv(s')
  {
    hide BlockOf;
  }

  // ---------------------------------------------------------------- every step is one of them

  /** Thread `t` moves to another point and no other thread moves. */
  ghost predicate Moves(s: State, s': State, t: Tid) {
    t in s'.pcs && s'.pcs == s.pcs[t := s'.pcs[t]]
  }

  ghost predicate SameRing(s: State, s': State) {
    s'.sh.queue == s.sh.queue && s'.at.dequeued == s.at.dequeued
  }

  lemma OtherBlocks(s: State, s': State, t: Tid)
    requires Moves(s, s', t)
    ensures forall u :: u != t ==> BlockOf(s', ByThread(u)) == BlockOf(s, ByThread(u))
    ensures BlockOf(s', ByThread(t)) == BufOf(s'.pcs[t])
    ensures SameRing(s, s') ==> forall n :: BlockOf(s', ByRing(n)) == BlockOf(s, ByRing(n))
  {
  }

  lemma SameBlock(s: State, s': State, t: Tid)
    requires BufInv(s) && Moves(s, s', t) && SameRing(s, s')
    requires BufOf(s'.pcs[t]) == if t in s.pcs then BufOf(s.pcs[t]) else None
    requires s'.pool == s.pool && s'.at.buf == s.at.buf
    ensures BufInv(s')
  {
    hide BufInv, BufOf;
    OtherBlocks(s, s', t);
    BlockStays(s, s');
  }

  lemma Written(s: State, s': State, t: Tid, b: Buf, off: nat, data: seq<byte>)
    requires BufInv(s) && Moves(s, s', t) && SameRing(s, s')
    requires BufOf(s'.pcs[t]) == if t in s.pcs then BufOf(s.pcs[t]) else None
    requires s'.pool == WriteBlock(s, b, off, data).pool && s'.at.buf == s.at.buf
    ensures BufInv(s')
  {
    hide BufInv, BufOf;
    OtherBlocks(s, s', t);
    BlockStays(s, s');
  }

  lemma Freed(s: State, s': State, t: Tid, place: BufPlace)
    requires BufInv(s) && Moves(s, s', t) && SameRing(s, s') && !place.Owned?
    requires t in s.pcs && BufOf(s.pcs[t]).Some? && BufOf(s'.pcs[t]) == None
    requires var b := BufOf(s.pcs[t]).value.data;
             s'.pool == s.pool.(mem := s.pool.mem - {b}) && s'.at.buf == s.at.buf[b := place]
    ensures BufInv(s')
  {
    hide BufInv, BufOf;
    OtherBlocks(s, s', t);
    BlockLeaves(s, s', ByThread(t), place);
  }

  /** Removing the oldest slot leaves every other ring position alone. */
  lemma HeadRemoved(s: State, s': State)
    requires s.sh.queue != [] && s'.sh.queue == s.sh.queue[1..] && s'.at.dequeued == s.at.dequeued + 1
    ensures BlockOf(s, ByRing(s.at.dequeued)) == Some(s.sh.queue[0]) && BlockOf(s', ByRing(s.at.dequeued)) == None
    ensures forall n :: n != s.at.dequeued ==> BlockOf(s', ByRing(n)) == BlockOf(s, ByRing(n))
  {
  }

  lemma TakenFromRing(s: State, s': State, t: Tid)
    requires BufInv(s) && Moves(s, s', t) && s.sh.queue != []
    requires t in s.pcs && BufOf(s.pcs[t]) == None && BufOf(s'.pcs[t]) == Some(s.sh.queue[0])
    requires s'.sh.queue == s.sh.queue[1..] && s'.at.dequeued == s.at.dequeued + 1
    requires s'.pool == s.pool && s'.at.buf == s.at.buf[s.sh.queue[0].data := Owned(ByThread(t))]
    ensures BufInv(s')
  {
    hide BufInv, BufOf;
    OtherBlocks(s, s', t);
    HeadRemoved(s, s');
    BlockPasses(s, s', ByRing(s.at.dequeued), ByThread(t));
  }

  lemma EvictedFromRing(s: State, s': State, t: Tid)
    requires BufInv(s) && Moves(s, s', t) && s.sh.queue != []
    requires t in s.pcs && BufOf(s'.pcs[t]) == BufOf(s.pcs[t])
    requires s'.sh.queue == s.sh.queue[1..] && s'.at.dequeued == s.at.dequeued + 1
    requires s'.pool == s.pool.(mem := s.pool.mem - {s.sh.queue[0].data})
    requires s'.at.buf == s.at.buf[s.sh.queue[0].data := Evicted]
    ensures BufInv(s')
  {
    hide BufInv, BufOf;
    OtherBlocks(s, s', t);
    HeadRemoved(s, s');
    BlockLeaves(s, s', ByRing(s.at.dequeued), Evicted);
  }

  lemma PutInRing(s: State, s': State, t: Tid)
    requires BufInv(s) && Moves(s, s', t)
    requires t in s.pcs && BufOf(s.pcs[t]).Some? && BufOf(s'.pcs[t]) == None
    requires s'.sh.queue == s.sh.queue + [BufOf(s.pcs[t]).value] && s'.at.dequeued == s.at.dequeued
    requires s'.pool == s.pool
    requires s'.at.buf == s.at.buf[BufOf(s.pcs[t]).value.data := Owned(ByRing(s.at.dequeued + |s.sh.queue|))]
    ensures BufInv(s')
  {
    hide BufInv, BufOf;
    OtherBlocks(s, s', t);
    BlockPasses(s, s', ByThread(t), ByRing(s.at.dequeued + |s.sh.queue|));
  }

  lemma Allocated(s: State, s': State, t: Tid, n: nat)
    requires BufInv(s) && Moves(s, s', t) && SameRing(s, s') && EventLength(n)
    requires t in s.pcs && BufOf(s.pcs[t]) == None && BufOf(s'.pcs[t]) == Some(Slot(s.pool.next, n))
    requires s'.pool == Pool(s.pool.next + 1, s.pool.mem[s.pool.next := Zeros(n)])
    requires s'.at.buf == s.at.buf[s.pool.next := Owned(ByThread(t))]
    ensures BufInv(s')
  {
    hide BufInv, BufOf;
    OtherBlocks(s, s', t);
    BlockEnters(s, s', ByThread(t), n);
  }

  lemma Denied(s: State, s': State, t: Tid)
    requires BufInv(s) && Moves(s, s', t) && SameRing(s, s')
    requires t in s.pcs && BufOf(s'.pcs[t]) == BufOf(s.pcs[t])
    requires s'.pool == s.pool.(next := s.pool.next + 1) && s'.at.buf == s.at.buf[s.pool.next := OutOfMemory]
    ensures BufInv(s')
  {
    hide BufInv, BufOf;
    OtherBlocks(s, s', t);
    BlockDenied(s, s');
  }

  lemma BuildKeepsBuffers(s: State, t: Tid, a: BuildStep)
    requires BufInv(s) && t in s.pcs && BuildEnabled(s, t, a)
    ensures BufInv(DoBuild(s, t, a))
  {
    hide BufInv, EncodeHeader;
    var s' := DoBuild(s, t, a);
    match a
    case AllocFail => Denied(s, s', t);
    case AllocOk(kind) => Allocated(s, s', t, EventSize(kind));
    case DoStampTrunc(ts) =>
      Written(s, s', t, s.pcs[t].ev.data, 0, EncodeHeader(HeaderOf(s, s.pcs[t], ts)));
    case WriteField(off, data) => Written(s, s', t, s.pcs[t].ev.data, off, data);
    case _ => SameBlock(s, s', t);
  }

  lemma SubmitKeepsBuffers(c: Config, s: State, t: Tid, a: SubmitStep)
    requires BufInv(s) && t in s.pcs && SubmitEnabled(c, s, t, a)
    ensures BufInv(DoSubmit(c, s, t, a))
  {
    hide BufInv, CopyFaults, TouchFaults;
    var s' := DoSubmit(c, s, t, a);
    match a
    case Evict => EvictedFromRing(s, s', t);
    case Enqueue => PutInRing(s, s', t);
    case _ => SameBlock(s, s', t);
  }

  lemma GetKeepsBuffers(c: Config, s: State, t: Tid, a: GetStep)
    requires BufInv(s) && t in s.pcs && GetEnabled(s, t, a)
    ensures BufInv(DoGet(c, s, t, a))
  {
    hide *;
    if Parks(a) { ParkKeepsBuffers(c, s, t, a); } else { FetchKeepsBuffers(c, s, t, a); }
  }

  lemma ParkKeepsBuffers(c: Config, s: State, t: Tid, a: GetStep)
    requires BufInv(s) && t in s.pcs && GetEnabled(s, t, a) && Parks(a)
    ensures BufInv(DoGet(c, s, t, a))
  {
    hide BufInv;
    SameBlock(s, DoGet(c, s, t, a), t);
  }

  lemma FetchKeepsBuffers(c: Config, s: State, t: Tid, a: GetStep)
    requires BufInv(s) && t in s.pcs && GetEnabled(s, t, a) && !Parks(a)
    ensures BufInv(DoGet(c, s, t, a))
  {
    hide BufInv, CopyFaults;
    var s' := DoGet(c, s, t, a);
    if a.Pop? { TakenFromRing(s, s', t); } else { SameBlock(s, s', t); }
  }

  lemma SettleKeepsBuffers(s: State, t: Tid, a: IrpStep)
    requires BufInv(s) && t in s.pcs && IrpEnabled(s, t, a) && Settles(a)
    ensures BufInv(DoIrp(s, t, a))
  {
    hide BufInv;
    var s' := DoIrp(s, t, a);
    if a.SettleFree? {
      Freed(s, s', t, if s.pcs[t].fits then Delivered(s.pcs[t].irp) else Refused(s.pcs[t].irp));
    } else {
      SameBlock(s, s', t);
    }
  }

  lemma DispatchKeepsBuffers(s: State, t: Tid, a: IrpStep)
    requires BufInv(s) && t in s.pcs && IrpEnabled(s, t, a) && !Settles(a)
    ensures BufInv(DoIrp(s, t, a))
  {
    hide BufInv;
    SameBlock(s, DoIrp(s, t, a), t);
  }

  lemma IrpKeepsBuffers(s: State, t: Tid, a: IrpStep)
    requires BufInv(s) && t in s.pcs && IrpEnabled(s, t, a)
    ensures BufInv(DoIrp(s, t, a))
  {
    hide *;
    if Settles(a) { SettleKeepsBuffers(s, t, a); } else { DispatchKeepsBuffers(s, t, a); }
  }

  lemma CancelKeepsBuffers(s: State, t: Tid, a: UnloadStep)
    requires BufInv(s) && t in s.pcs && UnloadEnabled(s, t, a) && !Drains(a)
    ensures BufInv(DoUnload(s, t, a))
  {
    hide BufInv, NoneRunning, UnloadOrder;
    SameBlock(s, DoUnload(s, t, a), t);
  }

  lemma DrainKeepsBuffers(s: State, t: Tid, a: UnloadStep)
    requires BufInv(s) && t in s.pcs && UnloadEnabled(s, t, a) && Drains(a)
    ensures BufInv(DoUnload(s, t, a))
  {
    hide BufInv, NoneRunning, UnloadOrder;
    var s' := DoUnload(s, t, a);
    match a
    case DrainPop => TakenFromRing(s, s', t);
    case DoDrainFree => Freed(s, s', t, Drained);
    case LockForDrain => SameBlock(s, s', t);
    case DrainDone => SameBlock(s, s', t);
  }

  lemma UnloadKeepsBuffers(s: State, t: Tid, a: UnloadStep)
    requires BufInv(s) && t in s.pcs && UnloadEnabled(s, t, a)
    ensures BufInv(DoUnload(s, t, a))
  {
    hide *;
    if Drains(a) { DrainKeepsBuffers(s, t, a); } else { CancelKeepsBuffers(s, t, a); }
  }
}
