/** What holds in every reachable state, for any number of threads and any interleaving. */
module Theorems {
  import opened Wire
  import opened Protocol
  import opened Subsequences
  import opened Buffers
  import opened Irps
  import opened Control
  import opened Ordering
  import opened Fates
  import opened Commitments
  import opened Accounting
  import opened Contents
  import opened Stamps
  import opened Requests
  import opened Delivery
  import opened Safety
  import opened Roles
  import opened Invariant

  lemma ReachableHolds(c: Config, s: State)
    requires Reachable(c, s)
    ensures Inv(c, s)
  {
    hide Inv, Enabled, Do, Init;
    var states: seq<State>, steps: seq<Step> :| IsRun(c, states, steps) && states[|steps|] == s;
    RunHolds(c, states, steps, |steps|);
  }

  /** The parts of the invariant, by name. */
  lemma Families(c: Config, s: State)
    requires Reachable(c, s)
    ensures BufInv(s) && IrpInv(s) && CtlInv(c, s) && OrderInv(s) && StageInv(s) && PromiseInv(s)
    ensures LossInv(s) && CountInv(s) && ContentInv(s) && StampInv(s) && RequestInv(s)
    ensures CopyInv(s) && OutcomeInv(s) && ReceiptInv(s) && FaultInv(c, s) && RoleInv(s)
    ensures TruncInv(s) && CommitInv(s)
  {
    hide Reachable, BufInv, IrpInv, CtlInv, OrderInv, StageInv, PromiseInv, LossInv, CountInv, ContentInv, StampInv,
         RequestInv, CopyInv, OutcomeInv, ReceiptInv, FaultInv, RoleInv, TruncInv, CommitInv;
    ReachableHolds(c, s);
  }

  // ---------------------------------------------------------------- order of delivery

  lemma SubsequenceDistinct<T>(a: seq<T>, b: seq<T>)
    requires Subsequence(a, b) && Distinct(b)
    ensures Distinct(a)
  {
    var f :| Embeds(f, a, b);
    forall i, j | 0 <= i < j < |a| ensures a[i] != a[j] {
      assert f[i] < f[j] && b[f[i]] == a[i] && b[f[j]] == a[j];
    }
  }

  /** Events popped or chosen for an IRP under the lock, followed by those still queued, are a subsequence
      of the submissions in lock order, and no event appears twice: direct delivery never overtakes a
      queued event. */
  lemma DeliveryInOrder(c: Config, s: State)
    requires Reachable(c, s)
    ensures Subsequence(s.order.committed + Datas(s.sh.queue), s.order.submitted)
    ensures Distinct(s.order.committed + Datas(s.sh.queue))
  {
    hide Reachable;
    ReachableHolds(c, s);
    hide BufInv, IrpInv, CtlInv, PromiseInv, LossInv, CountInv, ContentInv, StampInv, RequestInv,
         CopyInv, OutcomeInv, ReceiptInv, FaultInv, RoleInv, Subsequence, Distinct, InHand, Stage, TruncInv, CommitInv;
    Prefix(s.order.committed + Datas(s.sh.queue), InHand(s), s.order.submitted);
    SubsequenceDistinct(s.order.committed + Datas(s.sh.queue), s.order.submitted);
  }

  /** The elements of `xs` that are in `bs`, in order. */
  ghost function Only<T>(xs: seq<T>, bs: set<T>): seq<T> {
    if xs == [] then [] else Only(xs[..|xs| - 1], bs) + if xs[|xs| - 1] in bs then [xs[|xs| - 1]] else []
  }

  lemma {:induction false} OnlyWithin<T>(xs: seq<T>, bs: set<T>)
    ensures Subsequence(Only(xs, bs), xs)
  {
    hide Subsequence;
    if xs == [] {
      Reflexive(xs);
    } else {
      var init, last := xs[..|xs| - 1], xs[|xs| - 1];
      OnlyWithin(init, bs);
      assert xs == init + [last];
      if last in bs {
        Extend(Only(init, bs), init, last);
      } else {
        assert Only(xs, bs) == Only(init, bs);
        Longer(Only(init, bs), init, [last]);
      }
    }
  }

  lemma Reflexive<T>(a: seq<T>)
    ensures Subsequence(a, a)
  {
    var f: seq<nat> := seq(|a|, i => i);
    assert Embeds(f, a, a);
  }

  lemma Longer<T>(a: seq<T>, b: seq<T>, more: seq<T>)
    requires Subsequence(a, b)
    ensures Subsequence(a, b + more)
  {
    var f :| Embeds(f, a, b);
    assert Embeds(f, a, b + more);
  }

  lemma Transitive<T>(a: seq<T>, b: seq<T>, d: seq<T>)
    requires Subsequence(a, b) && Subsequence(b, d)
    ensures Subsequence(a, d)
  {
    var f :| Embeds(f, a, b);
    var g :| Embeds(g, b, d);
    var h: seq<nat> := seq(|f|, i requires 0 <= i < |f| => g[f[i]]);
    forall i | 0 <= i < |h| ensures h[i] < |d| && d[h[i]] == a[i] {
      assert h[i] == g[f[i]] && b[f[i]] == a[i];
    }
    assert Embeds(h, a, d);
  }

  lemma {:induction false} OnlyMembers<T>(xs: seq<T>, bs: set<T>)
    ensures forall x :: x in Only(xs, bs) <==> x in xs && x in bs
  {
    if xs != [] {
      OnlyMembers(xs[..|xs| - 1], bs);
      assert xs == xs[..|xs| - 1] + [xs[|xs| - 1]];
    }
  }

  lemma DeliveredCommitted(s: State)
    requires PromiseInv(s)
    ensures forall b :: b in DeliveredEvents(s) ==> b in s.order.committed
  {
    hide Promised;
  }

  /** The delivered events, in the order in which they were handed over under the lock, are a subsequence of
      the submissions in lock order; each appears once, and no delivered event is missing. */
  lemma DeliveredInOrder(c: Config, s: State)
    requires Reachable(c, s)
    ensures Subsequence(Only(s.order.committed, DeliveredEvents(s)), s.order.submitted)
    ensures Distinct(Only(s.order.committed, DeliveredEvents(s)))
    ensures forall b :: b in Only(s.order.committed, DeliveredEvents(s)) <==> b in DeliveredEvents(s)
  {
    hide *;
    Families(c, s);
    DeliveryInOrder(c, s);
    DeliveredCommitted(s);
    Prefix(s.order.committed, Datas(s.sh.queue), s.order.submitted);
    OnlyWithin(s.order.committed, DeliveredEvents(s));
    Transitive(Only(s.order.committed, DeliveredEvents(s)), s.order.committed, s.order.submitted);
    SubmittedDistinct(s);
    SubsequenceDistinct(Only(s.order.committed, DeliveredEvents(s)), s.order.submitted);
    OnlyMembers(s.order.committed, DeliveredEvents(s));
  }

  lemma SubmittedDistinct(s: State)
    requires StageInv(s)
    ensures Distinct(s.order.submitted)
  {
    hide Distinct, Stage;
  }

  /** The thread is in the middle of refusing, placing or draining its event. */
  predicate InTransit(pc: Pc) {
    || pc.HavePending? || pc.Pushing? || pc.CountEviction? || pc.DrainFree?
    || ((pc.Decided? || pc.Settle?) && !pc.fits)
  }

  lemma Missing(s: State, b: Buf)
    requires BufInv(s) && StageInv(s) && PromiseInv(s) && b in s.order.submitted && b !in s.order.committed
    ensures b in s.at.buf
    ensures match s.at.buf[b]
            case Owned(ByRing(_)) => b in Datas(s.sh.queue)
            case Owned(ByThread(t)) => t in s.pcs && InTransit(s.pcs[t]) && s.pcs[t].ev.data == b
            case Evicted => true
            case Refused(_) => true
            case Drained => true
            case _ => false
  {
    var p := s.at.buf[b];
    if p.Owned? && p.owner.ByRing? {
      QueuedAt(s, b);
    } else if p.Owned? {
      HolderOf(s, b);
      hide BufInv, Distinct;
    } else {
      hide BufInv, Distinct;
    }
  }

  lemma QueuedAt(s: State, b: Buf)
    requires BufInv(s) && b in s.at.buf && s.at.buf[b].Owned? && s.at.buf[b].owner.ByRing?
    ensures b in Datas(s.sh.queue)
  {
    var k := s.at.buf[b].owner.n - s.at.dequeued;
    assert Datas(s.sh.queue)[k] == b;
  }

  lemma HolderOf(s: State, b: Buf)
    requires BufInv(s) && b in s.at.buf && s.at.buf[b].Owned? && s.at.buf[b].owner.ByThread?
    ensures var t := s.at.buf[b].owner.t; t in s.pcs && BufOf(s.pcs[t]).Some? && BufOf(s.pcs[t]).value.data == b
  {
    hide BufOf;
  }

  /** A submission that was not handed over under the lock is queued, evicted, refused for a small buffer,
      drained at unload, or in transit in the hands of one thread. */
  lemma MissingSubmission(c: Config, s: State, b: Buf)
    requires Reachable(c, s) && b in s.order.submitted && b !in s.order.committed
    ensures b in s.at.buf
    ensures match s.at.buf[b]
            case Owned(ByRing(_)) => b in Datas(s.sh.queue)
            case Owned(ByThread(t)) => t in s.pcs && InTransit(s.pcs[t]) && s.pcs[t].ev.data == b
            case Evicted => true
            case Refused(_) => true
            case Drained => true
            case _ => false
  {
    hide *;
    Families(c, s);
    Missing(s, b);
  }

  /** An event handed over under the lock is delivered, refused, or held by the one thread that popped it or
      decided to copy it. */
  lemma CommittedFate(c: Config, s: State, b: Buf)
    requires Reachable(c, s) && b in s.order.committed
    ensures CommitOk(s, b)
  {
    Families(c, s) by { hide *; }
    hide Reachable, CommitOk;
  }

  lemma Fate(s: State, b: Buf)
    requires BufInv(s) && StageInv(s) && PromiseInv(s) && CommitInv(s) && b in s.order.submitted
    ensures b in s.at.buf
    ensures match s.at.buf[b]
            case Owned(ByRing(_)) => b in Datas(s.sh.queue) && b !in s.order.committed
            case Owned(ByThread(t)) => t in s.pcs && (MayHold(s.pcs[t]) || InTransit(s.pcs[t])) && s.pcs[t].ev.data == b
            case Delivered(_) => b in s.order.committed
            case Refused(_) => true
            case Evicted => b !in s.order.committed
            case Drained => b !in s.order.committed
            case OutOfMemory => false
  {
    if b in s.order.committed {
      assert CommitOk(s, b);
      hide BufInv, StageInv;
    } else {
      Missing(s, b);
      hide BufInv, StageInv, InTransit, MayHold;
    }
  }

  /** Where a submission can be, and whether it was handed over: queued, evicted and drained events were not,
      delivered ones were, and any other is refused or in the hands of one thread. */
  lemma SubmissionFate(c: Config, s: State, b: Buf)
    requires Reachable(c, s) && b in s.order.submitted
    ensures b in s.at.buf
    ensures match s.at.buf[b]
            case Owned(ByRing(_)) => b in Datas(s.sh.queue) && b !in s.order.committed
            case Owned(ByThread(t)) => t in s.pcs && (MayHold(s.pcs[t]) || InTransit(s.pcs[t])) && s.pcs[t].ev.data == b
            case Delivered(_) => b in s.order.committed
            case Refused(_) => true
            case Evicted => b !in s.order.committed
            case Drained => b !in s.order.committed
            case OutOfMemory => false
  {
    hide *;
    Families(c, s);
    Fate(s, b);
  }

  // ---------------------------------------------------------------- linear resources

  /** Every IRP is completed, or belongs to exactly one owner: its dispatcher, the pending slot or one
      taker. */
  lemma IrpInOnePlace(c: Config, s: State, i: Irp)
    requires Reachable(c, s) && i in s.io.reqs
    ensures i in s.io.completed <==> forall o :: IrpOf(s, o) != Some(i)
    ensures forall o1, o2 :: IrpOf(s, o1) == Some(i) && IrpOf(s, o2) == Some(i) ==> o1 == o2
  {
    hide Reachable;
    ReachableHolds(c, s);
    hide BufInv, CtlInv, OrderInv, StageInv, PromiseInv, LossInv, CountInv, ContentInv, StampInv, RequestInv,
         CopyInv, OutcomeInv, ReceiptInv, FaultInv, RoleInv, IrpOf, TruncInv, CommitInv;
    assert i in s.at.irp;
    if i !in s.io.completed { assert IrpOf(s, s.at.irp[i].holder) == Some(i); }
  }

  ghost predicate Owns(s: State, o: Owner, b: Buf) {
    BlockOf(s, o).Some? && BlockOf(s, o).value.data == b
  }

  lemma OneOwner(s: State, b: Buf)
    requires BufInv(s)
    ensures b in s.pool.mem <==> exists o :: Owns(s, o, b)
    ensures forall o :: Owns(s, o, b) ==> |s.pool.mem[b]| == BlockOf(s, o).value.size
    ensures forall o1, o2 :: Owns(s, o1, b) && Owns(s, o2, b) ==> o1 == o2
  {
    hide BlockOf;
    if b in s.pool.mem { assert Owns(s, s.at.buf[b].owner, b); }
  }

  /** A block is allocated exactly while one thread or one live ring position owns it, and then it has
      the length its slot tells; a block never has two owners. */
  lemma BlockInOnePlace(c: Config, s: State, b: Buf)
    requires Reachable(c, s)
    ensures b in s.pool.mem <==> exists o :: Owns(s, o, b)
    ensures forall o :: Owns(s, o, b) ==> b in s.pool.mem && |s.pool.mem[b]| == BlockOf(s, o).value.size
    ensures forall o1, o2 :: Owns(s, o1, b) && Owns(s, o2, b) ==> o1 == o2
  {
    Families(c, s) by { hide *; }
    OneOwner(s, b) by { hide *; }
    hide *;
  }

  /** With the pending mark before publication, no run has a fault. In the written order the only
      possible fault is the mark itself. */
  lemma NoFaults(c: Config, s: State)
    requires Reachable(c, s)
    ensures c.markFirst ==> s.faults == {}
    ensures forall f :: f in s.faults ==> f.MarkAfterCompletion?
  {
    hide Reachable;
    ReachableHolds(c, s);
    hide BufInv, IrpInv, CtlInv, OrderInv, StageInv, PromiseInv, LossInv, CountInv, ContentInv, StampInv, RequestInv,
         CopyInv, OutcomeInv, ReceiptInv, RoleInv, TruncInv, CommitInv;
    assert c.markFirst ==> forall f :: f !in s.faults;
  }

  // ---------------------------------------------------------------- accounting

  /** The modulus of a 32-bit counter. */
  lemma Congruent(counter: u32, log: seq<Stamp>, events: nat)
    requires Accounted(counter, log, events)
    ensures (counter + Total(log)) % 0x1_0000_0000 == events % 0x1_0000_0000
    ensures events < 0x1_0000_0000 ==> counter + Total(log) == events
  {
    var k := (events - (counter + Total(log))) / 0x1_0000_0000;
    assert events == counter + Total(log) + k * 0x1_0000_0000;
  }

  /** Stamps on the events of a set. */
  function TotalOver(log: seq<Stamp>, bs: set<Buf>): nat {
    if log == [] then 0
    else TotalOver(log[..|log| - 1], bs) + if log[|log| - 1].b in bs then log[|log| - 1].n else 0
  }

  lemma {:induction false} TotalSplit(log: seq<Stamp>, bs: set<Buf>, cs: set<Buf>)
    requires forall x :: x in log ==> (x.b in bs <==> x.b !in cs)
    ensures Total(log) == TotalOver(log, bs) + TotalOver(log, cs)
  {
    if log != [] {
      var init := log[..|log| - 1];
      assert forall x :: x in init ==> x in log;
      assert log[|log| - 1] in log;
      TotalSplit(init, bs, cs);
    }
  }

  ghost function LostEvents(s: State): set<Buf> { set b | b in s.at.buf && Lost(s.at.buf[b]) }
  ghost function DeliveredEvents(s: State): set<Buf> { set b | b in s.at.buf && s.at.buf[b].Delivered? }
  ghost function UndeliveredEvents(s: State): set<Buf> { set b | b in s.at.buf && !s.at.buf[b].Delivered? }

  lemma LossesCounted(s: State)
    requires LossInv(s)
    ensures |LostEvents(s)| == |s.acc.counted| + |s.acc.uncounted|
  {
    hide Owes, Lost;
    assert LostEvents(s) == s.acc.counted + s.acc.uncounted.Keys;
    assert s.acc.counted !! s.acc.uncounted.Keys;
  }

  lemma DropTotals(s: State)
    requires LossInv(s) && CountInv(s) && StampInv(s)
    ensures |LostEvents(s)| == |s.acc.counted| + |s.acc.uncounted|
    ensures (s.sh.drop + Total(s.acc.dropLog)) % 0x1_0000_0000 == |s.acc.counted| % 0x1_0000_0000
    ensures |s.acc.counted| < 0x1_0000_0000 ==>
              |s.acc.counted| - TotalOver(s.acc.dropLog, DeliveredEvents(s))
              == TotalOver(s.acc.dropLog, UndeliveredEvents(s)) + s.sh.drop
  {
    hide LossInv, Accounted, OncePerEvent, NotLogged, LostEvents;
    LossesCounted(s);
    Congruent(s.sh.drop, s.acc.dropLog, |s.acc.counted|);
    TotalSplit(s.acc.dropLog, DeliveredEvents(s), UndeliveredEvents(s));
  }

  /** Drop accounting in every reachable state. Losses are allocation failures, evictions and refusals;
      all are counted but those a thread is just about to count. The counter and all stamps ever taken
      account for the counted ones modulo 2^32; without wrap-around, what the delivered headers report
      falls short of the counted losses by the stamps on undelivered events plus the counter. */
  lemma DropAccounting(c: Config, s: State)
    requires Reachable(c, s)
    ensures |LostEvents(s)| == |s.acc.counted| + |s.acc.uncounted|
    ensures (s.sh.drop + Total(s.acc.dropLog)) % 0x1_0000_0000 == |s.acc.counted| % 0x1_0000_0000
    ensures |s.acc.counted| < 0x1_0000_0000 ==>
              |s.acc.counted| - TotalOver(s.acc.dropLog, DeliveredEvents(s))
              == TotalOver(s.acc.dropLog, UndeliveredEvents(s)) + s.sh.drop
  {
    hide *;
    Families(c, s);
    DropTotals(s);
  }

  lemma TruncTotals(s: State)
    requires CountInv(s) && TruncInv(s) && StageInv(s)
    ensures (s.sh.trunc + Total(s.acc.truncLog)) % 0x1_0000_0000 == s.acc.cuts % 0x1_0000_0000
    ensures s.acc.cuts < 0x1_0000_0000 ==>
              s.acc.cuts - TotalOver(s.acc.truncLog, DeliveredEvents(s))
              == TotalOver(s.acc.truncLog, UndeliveredEvents(s)) + s.sh.trunc
  {
    hide Accounted, OncePerEvent, Stage, Distinct;
    Congruent(s.sh.trunc, s.acc.truncLog, s.acc.cuts);
    TotalSplit(s.acc.truncLog, DeliveredEvents(s), UndeliveredEvents(s));
  }

  /** Truncation accounting: cuts made before a path is rejected, after an event's own header was stamped,
      or before an allocation failure are all accounted for; without wrap-around, what the delivered
      headers carry falls short of the cuts by the stamps on undelivered events plus the counter. */
  lemma TruncAccounting(c: Config, s: State)
    requires Reachable(c, s)
    ensures (s.sh.trunc + Total(s.acc.truncLog)) % 0x1_0000_0000 == s.acc.cuts % 0x1_0000_0000
    ensures s.acc.cuts < 0x1_0000_0000 ==>
              s.acc.cuts - TotalOver(s.acc.truncLog, DeliveredEvents(s))
              == TotalOver(s.acc.truncLog, UndeliveredEvents(s)) + s.sh.trunc
  {
    hide *;
    Families(c, s);
    TruncTotals(s);
  }

  // ---------------------------------------------------------------- what the agent receives

  ghost predicate CarriesEvent(s: State, i: Irp, n: nat) {
    && i in s.io.reqs && s.io.reqs[i].GetEvent? && i in s.rec.served && i in s.io.sysbuf
    && var b := s.rec.served[i];
    && b in s.rec.built && b in s.rec.headers && b in s.at.buf && s.at.buf[b] == Delivered(i)
    && HEADER_SIZE < n <= s.io.reqs[i].outlen && n <= |s.io.sysbuf[i]|
    && s.io.sysbuf[i][..n] == s.rec.built[b]
    && DecodeHeader(s.io.sysbuf[i]) == s.rec.headers[b]
    && DecodeHeader(s.io.sysbuf[i]).size == n
  }

  lemma Carries(s: State, i: Irp)
    requires OutcomeInv(s) && ReceiptInv(s) && ContentInv(s) && RequestInv(s)
    requires IsGet(s, i) && i in s.io.completed && s.io.completed[i].status == Success
    ensures CarriesEvent(s, i, s.io.completed[i].info)
  {
    hide PcRequest, Received, RefusedBy, Delivers, EncodeHeader, DecodeHeader;
    assert Outcome(s, i);
    var b := s.rec.served[i];
    assert HeaderAt(s.rec.built[b], s.rec.headers[b]);
    assert s.io.sysbuf[i] == EncodeHeader(s.rec.headers[b]) + s.io.sysbuf[i][HEADER_SIZE..];
    HeaderRoundTrip(s.rec.headers[b], s.io.sysbuf[i][HEADER_SIZE..]);
  }

  /** A successful get-event completion carries one event: `Information` is its size and the `size` field
      of its own header, the caller's buffer holds exactly the bytes the producer submitted, and the
      header's drop_count and trunc_count are the stamps logged for that event, each of which appears
      once. */
  lemma DeliveredBytes(c: Config, s: State, i: Irp)
    requires Reachable(c, s) && IsGet(s, i) && i in s.io.completed && s.io.completed[i].status == Success
    ensures CarriesEvent(s, i, s.io.completed[i].info)
    ensures Stamp(s.rec.served[i], DecodeHeader(s.io.sysbuf[i]).dropCount) in s.acc.dropLog
    ensures Stamp(s.rec.served[i], DecodeHeader(s.io.sysbuf[i]).truncCount) in s.acc.truncLog
    ensures OncePerEvent(s.acc.dropLog) && OncePerEvent(s.acc.truncLog)
  {
    assert StampInv(s) && TruncInv(s) && CarriesEvent(s, i, s.io.completed[i].info) by {
      hide *;
      Families(c, s);
      Carries(s, i);
    }
    hide Reachable, OncePerEvent, NotLogged, DecodeHeader;
  }

  lemma Receipts(s: State, b: Buf)
    requires ReceiptInv(s) && PromiseInv(s) && b in s.at.buf && s.at.buf[b].Delivered?
    ensures Received(s, b, s.at.buf[b].target) && b in s.order.committed
    ensures forall i, j :: i in s.rec.served && j in s.rec.served && s.rec.served[i] == s.rec.served[j] ==> i == j
  {
    hide Received, RefusedBy, Delivers;
  }

  /** Two IRPs never receive the same event, and every delivered event reaches the IRP it was freed for:
      it is completed with it, or one thread is about to do so. */
  lemma DeliveredOnce(c: Config, s: State, b: Buf)
    requires Reachable(c, s) && b in s.at.buf && s.at.buf[b].Delivered?
    ensures Received(s, b, s.at.buf[b].target) && b in s.order.committed
    ensures forall i, j :: i in s.rec.served && j in s.rec.served && s.rec.served[i] == s.rec.served[j] ==> i == j
  {
    hide *;
    Families(c, s);
    Receipts(s, b);
  }

  /** Every completion of a get-event IRP is one of four outcomes; a failure for lack of space names a
      size larger than the caller's buffer, and a refusal means that another IRP was parked. */
  lemma GetEventOutcomes(c: Config, s: State, i: Irp)
    requires Reachable(c, s) && IsGet(s, i) && i in s.io.completed
    ensures match s.io.completed[i]
            case Completion(Success, n) => i in s.rec.served && HEADER_SIZE < n <= s.io.reqs[i].outlen
            case Completion(BufferTooSmall, n) => s.io.reqs[i].outlen < n <= LARGEST_EVENT
            case Completion(Cancelled, n) => n == 0
            case Completion(Unsuccessful, n) => n == 0 && i in s.rec.rejectedBy && s.rec.rejectedBy[i] != i
            case Completion(InvalidRequest, _) => false
  {
    hide Reachable;
    ReachableHolds(c, s);
    hide BufInv, IrpInv, CtlInv, OrderInv, StageInv, PromiseInv, LossInv, CountInv, StampInv,
         CopyInv, ReceiptInv, FaultInv, RoleInv, PcRequest, HeaderAt, TruncInv, CommitInv;
    assert Outcome(s, i);
  }

  /** A client whose every get-event buffer holds the largest event is never told that its buffer is too
      small, and loses events only to evictions and allocation failures. */
  lemma LargeBuffersSuffice(c: Config, s: State)
    requires Reachable(c, s)
    requires forall i :: i in s.io.reqs && s.io.reqs[i].GetEvent? ==> s.io.reqs[i].outlen >= LARGEST_EVENT
    ensures forall i :: i in s.io.completed && IsGet(s, i) ==> s.io.completed[i].status != BufferTooSmall
    ensures forall b :: b in s.at.buf && Lost(s.at.buf[b]) ==> s.at.buf[b].OutOfMemory? || s.at.buf[b].Evicted?
  {
    hide Reachable;
    ReachableHolds(c, s);
    hide BufInv, IrpInv, CtlInv, OrderInv, StageInv, PromiseInv, LossInv, CountInv, StampInv, RequestInv,
         CopyInv, FaultInv, RoleInv, HeaderAt, Received, Delivers, TruncInv, CommitInv;
    forall i | i in s.io.completed && IsGet(s, i) ensures s.io.completed[i].status != BufferTooSmall {
      assert Outcome(s, i);
    }
    assert forall b :: b in s.at.buf && s.at.buf[b].Refused? ==> RefusedBy(s, b, s.at.buf[b].reader);
  }
}
