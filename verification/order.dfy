/** Order-preserving embeddings of sequences. */
module Subsequences {

  /** `f` places every element of `a` in `b`, in order. */
  ghost predicate Embeds<T>(f: seq<nat>, a: seq<T>, b: seq<T>) {
    && |f| == |a|
    && (forall i :: 0 <= i < |f| ==> f[i] < |b| && b[f[i]] == a[i])
    && (forall i, j :: 0 <= i < j < |f| ==> f[i] < f[j])
  }

  ghost predicate Subsequence<T>(a: seq<T>, b: seq<T>) {
    exists f :: Embeds(f, a, b)
  }

  lemma Extend<T>(a: seq<T>, b: seq<T>, x: T)
    requires Subsequence(a, b)
    ensures Subsequence(a + [x], b + [x])
  {
    var f :| Embeds(f, a, b);
    var n: nat := |b|;
    var g: seq<nat> := f + [n];
    forall i | 0 <= i < |g| ensures g[i] < |b + [x]| && (b + [x])[g[i]] == (a + [x])[i] {
      if i < |f| { assert g[i] == f[i] && f[i] < |b| && b[f[i]] == a[i]; }
    }
    assert Embeds(g, a + [x], b + [x]);
  }

  lemma DropAt<T>(a: seq<T>, b: seq<T>, k: nat)
    requires Subsequence(a, b) && k < |a|
    ensures Subsequence(a[..k] + a[k + 1..], b)
  {
    var f :| Embeds(f, a, b);
    var g, c := f[..k] + f[k + 1..], a[..k] + a[k + 1..];
    forall i | 0 <= i < |g| ensures g[i] < |b| && b[g[i]] == c[i] {
      var j := if i < k then i else i + 1;
      assert g[i] == f[j] && c[i] == a[j];
    }
    assert Embeds(g, c, b);
  }

  lemma Prefix<T>(a: seq<T>, a': seq<T>, b: seq<T>)
    requires Subsequence(a + a', b)
    ensures Subsequence(a, b)
  {
    var f :| Embeds(f, a + a', b);
    assert Embeds(f[..|a|], a, b) by {
      forall i | 0 <= i < |a| ensures f[i] < |b| && b[f[i]] == a[i] {
        assert (a + a')[i] == a[i];
      }
    }
  }
}

/** Delivery order: what reaches the agent, what is queued and what the lock holder has just accepted
    form, in that order, a subsequence of the submissions in lock order. */
module Ordering {
  import opened Wire
  import opened Protocol
  import opened Buffers
  import opened Control
  import opened Subsequences

  function Datas(q: seq<Slot>): (r: seq<Buf>)
    ensures |r| == |q|
    ensures forall i :: 0 <= i < |q| ==> r[i] == q[i].data
  {
    seq(|q|, i requires 0 <= i < |q| => q[i].data)
  }

  /** The event a submitter has announced but not yet placed. */
  function HandOf(pc: Pc): seq<Buf> {
    if pc.HavePending? || pc.Pushing? || pc.CountEviction? then [pc.ev.data] else []
  }

  ghost function InHand(s: State): seq<Buf> {
    if s.sh.lock.Some? && s.sh.lock.value in s.pcs then HandOf(s.pcs[s.sh.lock.value]) else []
  }

  ghost function Stream(s: State): seq<Buf> {
    s.order.committed + Datas(s.sh.queue) + InHand(s)
  }

  ghost predicate OrderInv(s: State) {
    Subsequence(Stream(s), s.order.submitted)
  }

  // ---------------------------------------------------------------- steps and the stream

  /** The thread keeps what it has in hand, or enters or leaves the lock with nothing in hand. */
  ghost predicate SameHand(s: State, s': State, t: Tid) {
    && Moves(s, s', t)
    && HandOf(s'.pcs[t]) == (if t in s.pcs then HandOf(s.pcs[t]) else [])
    && (|| s'.sh.lock == s.sh.lock
        || (HandOf(s'.pcs[t]) == [] && s.sh.lock == None && s'.sh.lock == Some(t))
        || (HandOf(s'.pcs[t]) == [] && s.sh.lock == Some(t) && s'.sh.lock == None))
  }

  lemma SameStream(s: State, s': State, t: Tid)
    requires OrderInv(s) && SameHand(s, s', t) && s'.order == s.order && s'.sh.queue == s.sh.queue
    ensures OrderInv(s')
  {
    hide HandOf, Subsequence;
    assert InHand(s') == InHand(s);
  }

  lemma Announce(s: State, s': State, t: Tid)
    requires OrderInv(s) && Moves(s, s', t) && t in s.pcs && s.sh.lock == Some(t) && s'.sh.lock == Some(t)
    requires HandOf(s.pcs[t]) == [] && |HandOf(s'.pcs[t])| == 1
    requires s'.order == s.order.(submitted := s.order.submitted + HandOf(s'.pcs[t])) && s'.sh.queue == s.sh.queue
    ensures OrderInv(s')
  {
    hide HandOf, Subsequence;
    var x := HandOf(s'.pcs[t])[0];
    assert HandOf(s'.pcs[t]) == [x];
    Extend(Stream(s), s.order.submitted, x);
    assert Stream(s') == Stream(s) + [x];
  }

  /** Direct delivery: the queue is empty, so the event in hand is next in line. */
  lemma CommitHand(s: State, s': State, t: Tid)
    requires OrderInv(s) && Moves(s, s', t) && t in s.pcs && s.sh.lock == Some(t) && s'.sh.lock == Some(t)
    requires s.sh.queue == [] && s'.sh.queue == [] && HandOf(s'.pcs[t]) == []
    requires s'.order == s.order.(committed := s.order.committed + HandOf(s.pcs[t]))
    ensures OrderInv(s')
  {
    hide HandOf, Subsequence;
    assert Stream(s') == Stream(s);
  }

  lemma DiscardHand(s: State, s': State, t: Tid)
    requires OrderInv(s) && Moves(s, s', t) && t in s.pcs && s.sh.lock == Some(t) && s'.sh.lock == Some(t)
    requires s'.sh.queue == s.sh.queue && HandOf(s'.pcs[t]) == [] && s'.order == s.order
    ensures OrderInv(s')
  {
    hide HandOf, Subsequence;
    assert Stream(s) == (s.order.committed + Datas(s.sh.queue)) + InHand(s);
    Prefix(s.order.committed + Datas(s.sh.queue), InHand(s), s.order.submitted);
    assert Stream(s') == s.order.committed + Datas(s.sh.queue);
  }

  lemma QueueHand(s: State, s': State, t: Tid, ev: Slot)
    requires OrderInv(s) && Moves(s, s', t) && t in s.pcs && s.sh.lock == Some(t) && s'.sh.lock == Some(t)
    requires HandOf(s.pcs[t]) == [ev.data] && HandOf(s'.pcs[t]) == []
    requires s'.sh.queue == s.sh.queue + [ev] && s'.order == s.order
    ensures OrderInv(s')
  {
    hide HandOf, Subsequence;
    assert Datas(s'.sh.queue) == Datas(s.sh.queue) + [ev.data];
    assert Stream(s') == Stream(s);
  }

  lemma Regroup(a: seq<Buf>, x: Buf, b: seq<Buf>, c: seq<Buf>)
    ensures (a + [x]) + b + c == a + ([x] + b) + c
  {
  }

  lemma CommitHead(s: State, s': State, t: Tid)
    requires OrderInv(s) && SameHand(s, s', t) && s.sh.queue != [] && s'.sh.queue == s.sh.queue[1..]
    requires s'.order == s.order.(committed := s.order.committed + [s.sh.queue[0].data])
    ensures OrderInv(s')
  {
    hide HandOf, Subsequence;
    assert InHand(s') == InHand(s);
    var d, d' := Datas(s.sh.queue), Datas(s'.sh.queue);
    assert d == [s.sh.queue[0].data] + d';
    Regroup(s.order.committed, s.sh.queue[0].data, d', InHand(s));
  }

  lemma DiscardHead(s: State, s': State, t: Tid)
    requires OrderInv(s) && SameHand(s, s', t) && s.sh.queue != [] && s'.sh.queue == s.sh.queue[1..]
    requires s'.order == s.order
    ensures OrderInv(s')
  {
    hide HandOf, Subsequence;
    assert InHand(s') == InHand(s);
    var k := |s.order.committed|;
    DropAt(Stream(s), s.order.submitted, k);
    assert Datas(s.sh.queue) == [s.sh.queue[0].data] + Datas(s'.sh.queue);
    CutOut(s.order.committed, s.sh.queue[0].data, Datas(s'.sh.queue), InHand(s));
  }

  lemma CutOut(a: seq<Buf>, x: Buf, q: seq<Buf>, h: seq<Buf>)
    ensures var all := a + ([x] + q) + h; all[..|a|] + all[|a| + 1..] == a + q + h
  {
  }

  lemma BuildKeepsOrder(s: State, t: Tid, a: BuildStep)
    requires OrderInv(s) && t in s.pcs && BuildEnabled(s, t, a)
    ensures OrderInv(DoBuild(s, t, a))
  {
    hide OrderInv, EncodeHeader;
    SameStream(s, DoBuild(s, t, a), t);
  }

  lemma SubmitKeepsOrder(c: Config, s: State, t: Tid, a: SubmitStep)
    requires OrderInv(s) && CtlInv(c, s) && t in s.pcs && SubmitEnabled(c, s, t, a)
    ensures OrderInv(DoSubmit(c, s, t, a))
  {
    hide OrderInv, CtlInv, CopyFaults, TouchFaults;
    var s' := DoSubmit(c, s, t, a);
    if !a.SubmitLock? { InSection(c, s, t); }
    match a
    case DoSwapPending => Announce(s, s', t);
    case Decide => if s'.pcs[t].fits { CommitHand(s, s', t); } else { DiscardHand(s, s', t); }
    case Evict => DiscardHead(s, s', t);
    case Enqueue => QueueHand(s, s', t, s.pcs[t].ev);
    case _ => SameStream(s, s', t);
  }

  lemma GetKeepsOrder(c: Config, s: State, t: Tid, a: GetStep)
    requires OrderInv(s) && CtlInv(c, s) && t in s.pcs && GetEnabled(s, t, a)
    ensures OrderInv(DoGet(c, s, t, a))
  {
    hide OrderInv, CtlInv, CopyFaults;
    var s' := DoGet(c, s, t, a);
    if HasLock(s.pcs[t]) { InSection(c, s, t); }
    if a.Pop? { CommitHead(s, s', t); } else { SameStream(s, s', t); }
  }

  lemma IrpKeepsOrder(s: State, t: Tid, a: IrpStep)
    requires OrderInv(s) && t in s.pcs && IrpEnabled(s, t, a)
    ensures OrderInv(DoIrp(s, t, a))
  {
    hide OrderInv;
    SameStream(s, DoIrp(s, t, a), t);
  }

  lemma UnloadKeepsOrder(c: Config, s: State, t: Tid, a: UnloadStep)
    requires OrderInv(s) && CtlInv(c, s) && t in s.pcs && UnloadEnabled(s, t, a)
    ensures OrderInv(DoUnload(s, t, a))
  {
    hide OrderInv, CtlInv, NoneRunning;
    var s' := DoUnload(s, t, a);
    if HasLock(s.pcs[t]) { InSection(c, s, t); }
    if a.DrainPop? { DiscardHead(s, s', t); } else { SameStream(s, s', t); }
  }
}
