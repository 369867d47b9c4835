/** The bounded queue as a sequence: the reference for the ring buffer. */
module BoundedQueue {
  import opened Wire

  /** Append; when full, the first element goes. */
  function Push<T>(q: seq<T>, x: T, cap: nat): seq<T> {
    (if |q| == cap && q != [] then q[1..] else q) + [x]
  }

  /** What `Push` removes. */
  function PushedOut<T>(q: seq<T>, cap: nat): seq<T> {
    if |q| == cap && q != [] then [q[0]] else []
  }

  function PushAll<T>(q: seq<T>, xs: seq<T>, cap: nat): seq<T>
    decreases xs
  {
    if xs == [] then q else PushAll(Push(q, xs[0], cap), xs[1..], cap)
  }

  function AllPushedOut<T>(q: seq<T>, xs: seq<T>, cap: nat): seq<T>
    decreases xs
  {
    if xs == [] then [] else PushedOut(q, cap) + AllPushedOut(Push(q, xs[0], cap), xs[1..], cap)
  }

  /** The number of elements that do not fit. */
  function Excess(n: nat, cap: nat): nat { if n > cap then n - cap else 0 }

  /** Recency: pushes without a pop split the old contents and the new elements, in order, into the
      oldest, which are pushed out, and the last `cap`, which stay. */
  lemma {:induction false} Recency<T>(q: seq<T>, xs: seq<T>, cap: nat)
    requires |q| <= cap && cap > 0
    ensures var all, out := q + xs, Excess(|q| + |xs|, cap);
            PushAll(q, xs, cap) == all[out..] && AllPushedOut(q, xs, cap) == all[..out]
    decreases xs
  {
    if xs == [] {
      assert q + xs == q;
    } else {
      var q' := Push(q, xs[0], cap);
      Recency(q', xs[1..], cap);
      assert q + xs == PushedOut(q, cap) + (q' + xs[1..]);
    }
  }

  /** `DROP_COUNT` after the pushes: one increment for each element pushed out, modulo 2^32. */
  function DropsAfter<T>(drop: u32, q: seq<T>, xs: seq<T>, cap: nat): u32
    decreases xs
  {
    if xs == [] then drop
    else DropsAfter((drop + |PushedOut(q, cap)|) % 0x1_0000_0000, Push(q, xs[0], cap), xs[1..], cap)
  }

  lemma {:induction false} RecencyDrops<T>(drop: u32, q: seq<T>, xs: seq<T>, cap: nat)
    requires |q| <= cap && cap > 0
    ensures DropsAfter(drop, q, xs, cap) == (drop + Excess(|q| + |xs|, cap)) % 0x1_0000_0000
    decreases xs
  {
    if xs != [] {
      RecencyDrops((drop + |PushedOut(q, cap)|) % 0x1_0000_0000, Push(q, xs[0], cap), xs[1..], cap);
    }
  }
}

/** The ring buffer of `QUEUE_BUF`, `QUEUE_HEAD`, `QUEUE_TAIL` and `QUEUE_LEN`. */
module Ring {
  import opened Wire
  import opened Protocol
  import opened Ordering
  import BoundedQueue

  /** Index `i` reduced to an array of `n` slots; at most one lap ahead. */
  function Wrap(i: nat, n: nat): (r: nat)
    requires i < 2 * n
    ensures r < n
  {
    if i < n then i else i - n
  }

  lemma WrapIsMod(i: nat, n: nat)
    requires i < 2 * n
    ensures i % n == Wrap(i, n)
  {
    if i >= n {
      assert i == n + (i - n);
      assert (n + (i - n)) % n == (i - n) % n;
    }
  }

  /** The index after `i`, around the ring. */
  function NextIndex(i: nat, n: nat): (r: nat)
    requires i < n
    ensures r == Wrap(i + 1, n)
  {
    WrapIsMod(i + 1, n);
    (i + 1) % n
  }

  /** The live window of an array of slots: `len` of them from `head`, read modulo its length. */
  function Window<T>(slots: seq<T>, head: nat, len: nat): (q: seq<T>)
    requires head < |slots| && len <= |slots|
    ensures |q| == len
  {
    seq(len, i requires 0 <= i < len => slots[Wrap(head + i, |slots|)])
  }

  lemma WindowAdvances<T>(slots: seq<T>, head: nat, len: nat)
    requires head < |slots| && 0 < len <= |slots|
    ensures var head' := Wrap(head + 1, |slots|);
            && Window(slots, head, len) == [slots[head]] + Window(slots, head', len - 1)
            && Wrap(head' + (len - 1), |slots|) == Wrap(head + len, |slots|)
  {
    var head' := Wrap(head + 1, |slots|);
    var q, r := Window(slots, head, len), [slots[head]] + Window(slots, head', len - 1);
    forall i | 0 <= i < len ensures q[i] == r[i] {
      assert q[i] == slots[Wrap(head + i, |slots|)];
      if i == 0 {
        assert q[i] == slots[head];
      } else {
        assert r[i] == Window(slots, head', len - 1)[i - 1] == slots[Wrap(head' + (i - 1), |slots|)];
      }
    }
    assert q == r;
  }

  lemma WindowGrows<T>(slots: seq<T>, head: nat, len: nat, x: T)
    requires head < |slots| && len < |slots|
    ensures var tail := Wrap(head + len, |slots|);
            && Window(slots[tail := x], head, len + 1) == Window(slots, head, len) + [x]
            && Wrap(tail + 1, |slots|) == Wrap(head + (len + 1), |slots|)
  {
    var tail := Wrap(head + len, |slots|);
    forall i | 0 <= i < len ensures Window(slots[tail := x], head, len + 1)[i] == Window(slots, head, len)[i] {
      assert Wrap(head + i, |slots|) != tail;
    }
  }

  lemma OneDone(done: seq<Slot>, q: seq<Slot>)
    requires q != []
    ensures Datas(done + [q[0]]) == Datas(done) + [q[0].data]
    ensures done + [q[0]] + q[1..] == done + q
  {
  }

  class EventRing {
    var buf: array<Slot>
    var head: nat
    var tail: nat
    var len: nat
    /** DROP_COUNT */
    var drop: u32
    /** The arguments of `ExFreePool`, in order. */
    var freed: seq<Buf>

    ghost predicate Valid()
      reads this
    {
      head < buf.Length && len <= buf.Length && tail == Wrap(head + len, buf.Length)
    }

    /** The stored tail is always the slot after the live window. */
    lemma TailFollows()
      requires Valid()
      ensures tail == (head + len) % buf.Length
    {
      WrapIsMod(head + len, buf.Length);
    }

    /** The live window, oldest first. Slots outside it are not part of the state. */
    ghost function Contents(): (q: seq<Slot>)
      requires Valid()
      reads this, buf
      ensures |q| == len
    {
      Window(buf[..], head, len)
    }

    constructor (capacity: nat)
      requires capacity > 0
      ensures Valid() && fresh(buf) && buf.Length == capacity && Contents() == [] && drop == 0 && freed == []
    {
      buf := new Slot[capacity](_ => Slot(0, 0));
      head, tail, len, drop, freed := 0, 0, 0, 0, [];
    }

    /** The full-queue branch of `queue_push_locked`. */
    method EvictOldest()
      requires Valid() && len > 0
      modifies this`head, this`len, this`freed, this`drop
      ensures Valid() && len == old(len) - 1 && Contents() == old(Contents())[1..]
      ensures freed == old(freed) + Datas([old(Contents())[0]]) && drop == Add32(old(drop), 1)
    {
      hide Window, Wrap, NextIndex, Add32;
      var oldest := buf[head];
      freed := freed + [oldest.data];
      WindowAdvances(buf[..], head, len);
      head := NextIndex(head, buf.Length);
      len := len - 1;
      drop := Add32(drop, 1);
      assert Datas([oldest]) == [oldest.data];
    }

    /** `queue_push_locked`. */
    method Push(x: Slot) returns (ok: bool)
      requires Valid()
      modifies this, buf
      ensures Valid() && buf == old(buf) && ok
      ensures Contents() == BoundedQueue.Push(old(Contents()), x, buf.Length)
      ensures freed == old(freed) + Datas(BoundedQueue.PushedOut(old(Contents()), buf.Length))
      ensures drop == Add32(old(drop), |BoundedQueue.PushedOut(old(Contents()), buf.Length)|)
    {
      hide Window, Wrap, NextIndex;
      if len == buf.Length { EvictOldest(); }
      WindowGrows(buf[..], head, len, x);
      ghost var slots := buf[..];
      buf[tail] := x;
      assert buf[..] == slots[tail := x];
      tail := NextIndex(tail, buf.Length);
      len := len + 1;
      ok := true;
    }

    /** `queue_pop_locked`. */
    method Pop() returns (r: Option<Slot>)
      requires Valid()
      modifies this
      ensures Valid() && buf == old(buf) && drop == old(drop) && freed == old(freed)
      ensures old(Contents()) == [] ==> r == None && Contents() == []
      ensures old(Contents()) != [] ==> r == Some(old(Contents())[0]) && Contents() == old(Contents())[1..]
    {
      if len == 0 { return None; }
      hide Window;
      var s := buf[head];
      WindowAdvances(buf[..], head, len);
      head := NextIndex(head, buf.Length);
      len := len - 1;
      r := Some(s);
    }

    /** The drain loop of `driver_unload`: frees what is queued, each block once, oldest first. */
    method Drain()
      requires Valid()
      modifies this
      ensures Valid() && buf == old(buf) && drop == old(drop) && Contents() == []
      ensures freed == old(freed) + Datas(old(Contents()))
    {
      hide Window;
      ghost var done: seq<Slot> := [];
      var more := true;
      while more
        invariant Valid() && buf == old(buf) && drop == old(drop)
        invariant done + Contents() == old(Contents())
        invariant freed == old(freed) + Datas(done)
        invariant !more ==> Contents() == []
        decreases len, more
      {
        ghost var q := Contents();
        var slot := Pop();
        if slot.Some? {
          OneDone(done, q);
          freed := freed + [slot.value.data];
          done := done + [slot.value];
        } else {
          more := false;
        }
      }
      assert done == old(Contents());
    }
  }

  // ---------------------------------------------------------------- the protocol's queue is the ring's contents

  /** `submit_event` at its push, run without interruption: evict and count when full, then enqueue. */
  ghost function PushSteps(c: Config, s: State, t: Tid): seq<Step> {
    if |s.sh.queue| == c.capacity then [Submit(t, Evict), Submit(t, DoCountEviction), Submit(t, Enqueue)]
    else [Submit(t, Enqueue)]
  }

  lemma FullPush(c: Config, s: State, t: Tid) returns (states: seq<State>)
    requires t in s.pcs && s.pcs[t].Pushing? && c.Valid() && |s.sh.queue| == c.capacity
    ensures IsPath(c, states, PushSteps(c, s, t)) && states[0] == s && |states| == 4
    ensures var s', q := states[3], s.sh.queue;
            && s'.pcs == s.pcs[t := Pushed] && s'.sh.queue == q[1..] + [s.pcs[t].ev]
            && s'.sh.drop == Add32(s.sh.drop, 1) && s'.pool.mem == s.pool.mem - {q[0].data}
  {
    var s1 := Do(c, s, Submit(t, Evict));
    var s2 := Do(c, s1, Submit(t, DoCountEviction));
    states := [s, s1, s2, Do(c, s2, Submit(t, Enqueue))];
  }

  /** The steps of the protocol at a push have on its queue, its counter and its pool the effect that
      `EventRing.Push` has on the ring. */
  lemma ProtocolPush(c: Config, s: State, t: Tid) returns (states: seq<State>)
    requires t in s.pcs && s.pcs[t].Pushing? && c.Valid() && |s.sh.queue| <= c.capacity
    ensures IsPath(c, states, PushSteps(c, s, t)) && states[0] == s
    ensures var s', q, out := states[|states| - 1], s.sh.queue, BoundedQueue.PushedOut(s.sh.queue, c.capacity);
            && s'.pcs == s.pcs[t := Pushed] && s'.sh.queue == BoundedQueue.Push(q, s.pcs[t].ev, c.capacity)
            && s'.sh.drop == Add32(s.sh.drop, |out|) && s'.pool.mem == s.pool.mem - (set x | x in Datas(out))
  {
    if |s.sh.queue| == c.capacity {
      states := FullPush(c, s, t);
      var oldest := s.sh.queue[0];
      assert Datas([oldest]) == [oldest.data];
      assert (set x | x in Datas([oldest])) == {oldest.data};
    } else {
      states := [s, Do(c, s, Submit(t, Enqueue))];
      assert (set x | x in Datas([])) == {};
    }
  }
}
