/** What one routine does when nothing interferes: a function on the state all routines share. */
module Sequential {
  import opened Wire
  import opened Protocol
  import BoundedQueue

  datatype View = View(
    queue: seq<Slot>, pending: Option<Irp>, drop: u32, mem: map<Buf, seq<byte>>,
    outlen: map<Irp, nat>, sysbuf: map<Irp, seq<byte>>, completed: map<Irp, Completion>)

  function DataSet(q: seq<Slot>): set<Buf> { set i | 0 <= i < |q| :: q[i].data }

  /** An IRP that can be answered: known, with a system buffer of its output length. */
  predicate Answerable(v: View, irp: Irp) {
    irp in v.outlen && irp in v.sysbuf && |v.sysbuf[irp]| == v.outlen[irp] && irp !in v.completed
  }

  predicate LiveSlot(v: View, ev: Slot) { ev.data in v.mem && |v.mem[ev.data]| == ev.size }

  /** Queued blocks are live and distinct; a parked IRP can be answered, and then nothing is queued. */
  predicate Sound(v: View) {
    && (forall i :: 0 <= i < |v.queue| ==> LiveSlot(v, v.queue[i]))
    && (forall i, j :: 0 <= i < j < |v.queue| ==> v.queue[i].data != v.queue[j].data)
    && (v.pending.Some? ==> Answerable(v, v.pending.value) && v.queue == [])
  }

  /** Give event `ev` to `irp`: copy and succeed, or count a loss and name the size needed. The block is
      freed in either case. */
  function Answer(v: View, ev: Slot, irp: Irp): View
    requires Answerable(v, irp) && LiveSlot(v, ev)
  {
    if v.outlen[irp] >= ev.size then
      v.(sysbuf := v.sysbuf[irp := Splice(v.sysbuf[irp], 0, v.mem[ev.data])], mem := v.mem - {ev.data},
         completed := v.completed[irp := Completion(Success, ev.size)])
    else
      v.(mem := v.mem - {ev.data}, drop := Add32(v.drop, 1), completed := v.completed[irp := Completion(BufferTooSmall, ev.size)])
  }

  /** `submit_event`. */
  function Submitted(v: View, cap: nat, ev: Slot): View
    requires Sound(v) && LiveSlot(v, ev)
  {
    if v.pending.Some? then Answer(v.(pending := None), ev, v.pending.value)
    else
      var out := BoundedQueue.PushedOut(v.queue, cap);
      v.(queue := BoundedQueue.Push(v.queue, ev, cap), drop := Add32(v.drop, |out|), mem := v.mem - DataSet(out))
  }

  /** `dispatch_device_control` for a get-event request: answer with the oldest event, park, or refuse. */
  function Requested(v: View, irp: Irp): View
    requires Sound(v) && Answerable(v, irp)
  {
    if v.queue != [] then Answer(v.(queue := v.queue[1..]), v.queue[0], irp)
    else if v.pending == None then v.(pending := Some(irp))
    else v.(completed := v.completed[irp := Completion(Unsuccessful, 0)])
  }

  /** `dispatch_cleanup`. */
  function CleanedUp(v: View, irp: Irp): View {
    var done := if v.pending.Some? then v.completed[v.pending.value := Completion(Cancelled, 0)] else v.completed;
    v.(pending := None, completed := done[irp := Completion(Success, 0)])
  }

  /** What a cleanup leaves behind: nothing parked, its own IRP succeeded, the one it found cancelled, and
      everything else as it was. */
  ghost predicate CleanupEffect(v: View, v': View, irp: Irp) {
    && v'.pending == None && irp in v'.completed && v'.completed[irp] == Completion(Success, 0)
    && (v.pending.Some? && v.pending.value != irp ==>
          v.pending.value in v'.completed && v'.completed[v.pending.value] == Completion(Cancelled, 0))
    && (forall i :: i != irp && v.pending != Some(i) ==>
          (i in v'.completed <==> i in v.completed) && (i in v.completed ==> v'.completed[i] == v.completed[i]))
    && v'.queue == v.queue && v'.drop == v.drop && v'.mem == v.mem && v'.outlen == v.outlen && v'.sysbuf == v.sysbuf
  }

  lemma CleanedUpEffect(v: View, irp: Irp)
    ensures CleanupEffect(v, CleanedUp(v, irp), irp)
  {
  }

  /** What an answer leaves behind: the IRP completed with the size of the event, successfully and with its
      bytes at the front of the buffer if there was room, else as too small and with one loss counted. */
  ghost predicate AnswerEffect(v: View, v': View, ev: Slot, irp: Irp)
    requires Answerable(v, irp) && LiveSlot(v, ev)
  {
    && v'.mem == v.mem - {ev.data} && v'.queue == v.queue && v'.pending == v.pending && v'.outlen == v.outlen
    && irp in v'.completed && irp in v'.sysbuf && |v'.sysbuf[irp]| == |v.sysbuf[irp]|
    && (forall i :: i != irp ==> (i in v'.completed <==> i in v.completed) && (i in v.completed ==> v'.completed[i] == v.completed[i]))
    && (v.outlen[irp] >= ev.size ==>
          && v'.completed[irp] == Completion(Success, ev.size) && v'.drop == v.drop
          && ev.size <= |v'.sysbuf[irp]| && v'.sysbuf[irp][..ev.size] == v.mem[ev.data]
          && v'.sysbuf[irp][ev.size..] == v.sysbuf[irp][ev.size..])
    && (v.outlen[irp] < ev.size ==>
          v'.completed[irp] == Completion(BufferTooSmall, ev.size) && v'.drop == Add32(v.drop, 1) && v'.sysbuf == v.sysbuf)
  }

  lemma AnsweredEffect(v: View, ev: Slot, irp: Irp)
    requires Answerable(v, irp) && LiveSlot(v, ev)
    ensures AnswerEffect(v, Answer(v, ev, irp), ev, irp)
  {
  }

  /** `driver_unload` after the callbacks are removed: cancel the parked IRP, free what is queued. */
  function TornDown(v: View): View {
    v.(pending := None, queue := [], mem := v.mem - DataSet(v.queue),
       completed := if v.pending.Some? then v.completed[v.pending.value := Completion(Cancelled, 0)] else v.completed)
  }

  lemma AnswerSound(v: View, ev: Slot, irp: Irp)
    requires Sound(v) && v.pending == None && Answerable(v, irp) && LiveSlot(v, ev)
    requires forall i :: 0 <= i < |v.queue| ==> v.queue[i].data != ev.data
    ensures Sound(Answer(v, ev, irp))
  {
  }

  lemma SubmittedSound(v: View, cap: nat, ev: Slot)
    requires Sound(v) && LiveSlot(v, ev) && forall i :: 0 <= i < |v.queue| ==> v.queue[i].data != ev.data
    ensures Sound(Submitted(v, cap, ev))
  {
    if v.pending.Some? {
      hide Answer;
      AnswerSound(v.(pending := None), ev, v.pending.value);
    }
  }

  lemma RequestedSound(v: View, irp: Irp)
    requires Sound(v) && Answerable(v, irp)
    ensures Sound(Requested(v, irp)) || v.pending == Some(irp)
  {
    if v.queue != [] {
      var rest := v.(queue := v.queue[1..]);
      assert Sound(rest);
      AnswerSound(rest, v.queue[0], irp) by { hide Answer; }
    }
  }

  lemma CleanedUpSound(v: View, irp: Irp)
    requires Sound(v)
    ensures Sound(CleanedUp(v, irp))
  {
  }
}

/** `submit_event`, `dispatch_device_control` and `dispatch_cleanup` in place, over the ring buffer. */
module DriverObject {
  import opened Wire
  import opened Protocol
  import opened Ordering
  import opened Ring
  import opened Sequential

  class Driver {
    const ring: EventRing
    var pending: Option<Irp>
    /** Every block ever allocated, with its contents; `ring.freed` lists those given back. */
    var blocks: map<Buf, seq<byte>>
    var outlen: map<Irp, nat>
    var sysbuf: map<Irp, seq<byte>>
    var completed: map<Irp, Completion>

    constructor (capacity: nat)
      requires capacity > 0
      ensures Valid() && fresh(ring) && fresh(ring.buf) && ring.buf.Length == capacity
      ensures Abstract() == View([], None, 0, map[], map[], map[], map[])
    {
      ring := new EventRing(capacity);
      pending, blocks, outlen, sysbuf, completed := None, map[], map[], map[], map[];
    }

    ghost function Live(): map<Buf, seq<byte>>
      reads this, ring
    {
      map b | b in blocks && b !in ring.freed :: blocks[b]
    }

    ghost function Abstract(): View
      requires ring.Valid()
      reads this, ring, ring.buf
    {
      View(ring.Contents(), pending, ring.drop, Live(), outlen, sysbuf, completed)
    }

    ghost predicate Valid()
      reads this, ring, ring.buf
    {
      ring.Valid() && Sound(Abstract())
    }

    /** `ExFreePool`. */
    method Free(b: Buf)
      requires b in Live() && ring.Valid()
      modifies ring`freed
      ensures ring.freed == old(ring.freed) + [b] && Live() == old(Live()) - {b}
    {
      ring.freed := ring.freed + [b];
    }

    method Complete(irp: Irp, status: Status, info: nat)
      requires irp !in completed
      modifies this`completed
      ensures completed == old(completed)[irp := Completion(status, info)]
    {
      completed := completed[irp := Completion(status, info)];
    }

    /** The end both delivery paths share: copy if it fits, free, count a refusal, complete. */
    method AnswerWith(ev: Slot, irp: Irp)
      requires ring.Valid() && Answerable(Abstract(), irp) && LiveSlot(Abstract(), ev)
      modifies this`sysbuf, this`completed, ring`freed, ring`drop
      ensures ring.Valid() && Abstract() == Answer(old(Abstract()), ev, irp)
      ensures AnswerEffect(old(Abstract()), Abstract(), ev, irp)
    {
      AnsweredEffect(Abstract(), ev, irp);
      hide Window, Wrap, Splice, AnswerEffect;
      if outlen[irp] >= ev.size {
        sysbuf := sysbuf[irp := Splice(sysbuf[irp], 0, blocks[ev.data])];
        Free(ev.data);
        Complete(irp, Success, ev.size);
      } else {
        Free(ev.data);
        ring.drop := (ring.drop + 1) % 0x1_0000_0000;
        Complete(irp, BufferTooSmall, ev.size);
      }
    }

    /** `submit_event`. */
    method SubmitEvent(ev: Slot)
      requires Valid() && LiveSlot(Abstract(), ev)
      requires forall i :: 0 <= i < |ring.Contents()| ==> ring.Contents()[i].data != ev.data
      modifies this, ring, ring.buf
      ensures ring.buf == old(ring.buf) && Valid()
      ensures Abstract() == Submitted(old(Abstract()), ring.buf.Length, ev)
    {
      SubmittedSound(Abstract(), ring.buf.Length, ev);
      assert pending.Some? ==> Answerable(Abstract(), pending.value);
      hide Window, Wrap, Sound, Answer;
      var irp := pending;
      pending := None;
      if irp.Some? {
        AnswerWith(ev, irp.value);
      } else {
        var _ := ring.Push(ev);
      }
    }

    /** `dispatch_device_control` with IOCTL_WEDR_GET_EVENT; `parked` stands for STATUS_PENDING. */
    method GetEvent(irp: Irp) returns (parked: bool)
      requires Valid() && Answerable(Abstract(), irp) && pending != Some(irp)
      modifies this, ring
      ensures ring.buf == old(ring.buf) && Valid()
      ensures Abstract() == Requested(old(Abstract()), irp)
      ensures parked <==> pending == Some(irp)
    {
      RequestedSound(Abstract(), irp);
      assert ring.Contents() != [] ==> LiveSlot(Abstract(), ring.Contents()[0]);
      hide Window, Wrap, Sound, Answer;
      var slot := ring.Pop();
      if slot.Some? {
        AnswerWith(slot.value, irp);
        return false;
      }
      if pending != None {
        Complete(irp, Unsuccessful, 0);
        return false;
      }
      pending := Some(irp);
      return true;
    }

    /** `dispatch_cleanup`. */
    method Cleanup(irp: Irp)
      requires Valid() && irp !in completed && pending != Some(irp)
      modifies this
      ensures Valid() && Abstract() == CleanedUp(old(Abstract()), irp)
      ensures CleanupEffect(old(Abstract()), Abstract(), irp)
    {
      CleanedUpEffect(Abstract(), irp);
      hide CleanupEffect;
      CleanedUpSound(Abstract(), irp);
      var taken := pending;
      pending := None;
      if taken.Some? { Complete(taken.value, Cancelled, 0); }
      Complete(irp, Success, 0);
    }

    /** The cancel and drain of `driver_unload`. */
    method Unload()
      requires Valid()
      modifies this, ring
      ensures ring.buf == old(ring.buf) && Valid() && Abstract() == TornDown(old(Abstract()))
    {
      hide Window, Wrap;
      var taken := pending;
      pending := None;
      if taken.Some? { Complete(taken.value, Cancelled, 0); }
      ghost var q := ring.Contents();
      ring.Drain();
      assert forall b :: b in Datas(q) <==> b in DataSet(q);
    }
  }
}
