/** What the pool blocks contain: the stamped header stays in place while the fields are filled, and
    nothing changes after submission. */
module Contents {
  import opened Wire
  import opened Protocol
  import opened Buffers
  import opened Fates

  /** Block `m` starts with header `h`, which tells its length. */
  ghost predicate HeaderAt(m: seq<byte>, h: Header) {
    |m| >= HEADER_SIZE && m[..HEADER_SIZE] == EncodeHeader(h) && h.size == |m|
  }

  ghost predicate ContentInv(s: State) {
    && (forall b :: b in s.pool.mem && b in s.rec.headers ==> HeaderAt(s.pool.mem[b], s.rec.headers[b]))
    && (forall b :: b in s.pool.mem && b in s.rec.built ==> s.pool.mem[b] == s.rec.built[b])
    && (forall b :: b in s.rec.built ==>
          b in s.rec.headers && HeaderAt(s.rec.built[b], s.rec.headers[b]) && EventLength(|s.rec.built[b]|))
  }

  /** Blocks may disappear; nothing else changes. */
  lemma SameContents(s: State, s': State)
    requires ContentInv(s) && s'.rec.headers == s.rec.headers && s'.rec.built == s.rec.built
    requires forall b :: b in s'.pool.mem ==> b in s.pool.mem && s'.pool.mem[b] == s.pool.mem[b]
    ensures ContentInv(s')
  {
    hide HeaderAt;
  }

  lemma NewBlock(s: State, s': State, m: seq<byte>)
    requires ContentInv(s) && StageInv(s) && BufInv(s)
    requires s'.rec.headers == s.rec.headers && s'.rec.built == s.rec.built
    requires s'.pool.mem == s.pool.mem[s.pool.next := m]
    ensures ContentInv(s')
  {
    hide HeaderAt, Stage, Distinct;
    assert s.pool.next !in s.at.buf;
  }

  /** A block at stage `n` owned by thread `t`. */
  lemma AtStage(s: State, t: Tid)
    requires StageInv(s) && BufInv(s) && t in s.pcs && BufOf(s.pcs[t]).Some?
    ensures var ev, n := BufOf(s.pcs[t]).value, PcStage(s.pcs[t]);
            && SlotOk(s, ev)
            && (ev.data in s.rec.headers <==> n >= 2)
            && (ev.data in s.rec.built <==> n >= 3)
            && (ev.data in s.order.submitted <==> n >= 4)
  {
    OwnBlock(s, t);
    hide BufInv, SlotOk, PcStage, Distinct;
  }

  lemma HeaderWritten(m: seq<byte>, h: Header)
    requires |m| >= HEADER_SIZE && h.size == |m|
    ensures HeaderAt(Splice(m, 0, EncodeHeader(h)), h)
  {
    hide EncodeHeader;
  }

  lemma FieldWritten(m: seq<byte>, h: Header, off: nat, data: seq<byte>)
    requires HeaderAt(m, h) && HEADER_SIZE <= off && off + |data| <= |m|
    ensures HeaderAt(Splice(m, off, data), h)
  {
    hide EncodeHeader;
  }

  lemma Stamped(s: State, s': State, b: Buf, h: Header)
    requires ContentInv(s) && b in s.pool.mem && b !in s.rec.built
    requires |s.pool.mem[b]| >= HEADER_SIZE && h.size == |s.pool.mem[b]|
    requires s'.pool.mem == s.pool.mem[b := Splice(s.pool.mem[b], 0, EncodeHeader(h))]
    requires s'.rec.headers == s.rec.headers[b := h] && s'.rec.built == s.rec.built
    ensures ContentInv(s')
  {
    HeaderWritten(s.pool.mem[b], h);
    hide HeaderAt, EncodeHeader, Splice;
  }

  lemma Filled(s: State, s': State, b: Buf, off: nat, data: seq<byte>)
    requires ContentInv(s) && b in s.pool.mem && b in s.rec.headers && b !in s.rec.built
    requires HEADER_SIZE <= off && off + |data| <= |s.pool.mem[b]|
    requires s'.pool.mem == s.pool.mem[b := Splice(s.pool.mem[b], off, data)]
    requires s'.rec.headers == s.rec.headers && s'.rec.built == s.rec.built
    ensures ContentInv(s')
  {
    FieldWritten(s.pool.mem[b], s.rec.headers[b], off, data);
    hide HeaderAt, Splice;
  }

  lemma Sealed(s: State, s': State, b: Buf)
    requires ContentInv(s) && b in s.pool.mem && b in s.rec.headers && EventLength(|s.pool.mem[b]|)
    requires s'.pool.mem == s.pool.mem
    requires s'.rec.headers == s.rec.headers && s'.rec.built == s.rec.built[b := s.pool.mem[b]]
    ensures ContentInv(s')
  {
    hide HeaderAt;
  }

  lemma BuildKeepsContents(s: State, t: Tid, a: BuildStep)
    requires ContentInv(s) && StageInv(s) && BufInv(s) && t in s.pcs && BuildEnabled(s, t, a)
    ensures ContentInv(DoBuild(s, t, a))
  {
    hide ContentInv, StageInv, BufInv, EncodeHeader, Splice;
    var s' := DoBuild(s, t, a);
    match a
    case AllocOk(kind) => NewBlock(s, s', Zeros(EventSize(kind)));
    case DoStampTrunc(ts) => AtStage(s, t); Stamped(s, s', s.pcs[t].ev.data, HeaderOf(s, s.pcs[t], ts));
    case WriteField(off, data) => AtStage(s, t); Filled(s, s', s.pcs[t].ev.data, off, data);
    case _ => SameContents(s, s');
  }

  lemma SubmitKeepsContents(c: Config, s: State, t: Tid, a: SubmitStep)
    requires ContentInv(s) && StageInv(s) && BufInv(s) && t in s.pcs && SubmitEnabled(c, s, t, a)
    ensures ContentInv(DoSubmit(c, s, t, a))
  {
    hide ContentInv, StageInv, BufInv, CopyFaults, TouchFaults;
    var s' := DoSubmit(c, s, t, a);
    if a.SubmitLock? { AtStage(s, t); Sealed(s, s', s.pcs[t].ev.data); } else { SameContents(s, s'); }
  }

  lemma GetKeepsContents(c: Config, s: State, t: Tid, a: GetStep)
    requires ContentInv(s) && t in s.pcs && GetEnabled(s, t, a)
    ensures ContentInv(DoGet(c, s, t, a))
  {
    hide ContentInv, CopyFaults;
    SameContents(s, DoGet(c, s, t, a));
  }

  lemma IrpKeepsContents(s: State, t: Tid, a: IrpStep)
    requires ContentInv(s) && t in s.pcs && IrpEnabled(s, t, a)
    ensures ContentInv(DoIrp(s, t, a))
  {
    hide ContentInv;
    SameContents(s, DoIrp(s, t, a));
  }

  lemma UnloadKeepsContents(s: State, t: Tid, a: UnloadStep)
    requires ContentInv(s) && t in s.pcs && UnloadEnabled(s, t, a)
    ensures ContentInv(DoUnload(s, t, a))
  {
    hide ContentInv, NoneRunning;
    SameContents(s, DoUnload(s, t, a));
  }
}

/** Every header carries the drop_count and trunc_count stamps that were logged for its event, once. */
module Stamps {
  import opened Wire
  import opened Protocol
  import opened Buffers
  import opened Fates
  import opened Contents

  ghost predicate OncePerEvent(log: seq<Stamp>) {
    forall i, j :: 0 <= i < j < |log| ==> log[i].b != log[j].b
  }

  ghost predicate NotLogged(log: seq<Stamp>, b: Buf) {
    forall i :: 0 <= i < |log| ==> log[i].b != b
  }

  ghost predicate StampInv(s: State) {
    && OncePerEvent(s.acc.dropLog)
    && (forall x :: x in s.acc.dropLog ==> x.b in s.at.buf)
    && (forall b :: b in s.rec.headers ==> Stamp(b, s.rec.headers[b].dropCount) in s.acc.dropLog)
    && (forall t :: t in s.pcs && s.pcs[t].StampTrunc? ==> Stamp(s.pcs[t].ev.data, s.pcs[t].drops) in s.acc.dropLog)
    && (forall t :: t in s.pcs && s.pcs[t].StampDrop? ==> NotLogged(s.acc.dropLog, s.pcs[t].ev.data))
  }

  lemma SameStamps(s: State, s': State, t: Tid)
    requires StampInv(s) && Moves(s, s', t) && s'.acc.dropLog == s.acc.dropLog && s'.rec.headers == s.rec.headers
    requires forall b :: b in s.at.buf ==> b in s'.at.buf
    requires !s'.pcs[t].StampDrop? && !s'.pcs[t].StampTrunc?
    ensures StampInv(s')
  {
    hide OncePerEvent, NotLogged;
  }

  lemma NewUnstamped(s: State, s': State, t: Tid)
    requires StampInv(s) && BufInv(s) && Moves(s, s', t)
    requires s'.acc.dropLog == s.acc.dropLog && s'.rec.headers == s.rec.headers
    requires s'.at.buf == s.at.buf[s.pool.next := Owned(ByThread(t))]
    requires s'.pcs[t].StampDrop? && s'.pcs[t].ev.data == s.pool.next
    ensures StampInv(s')
  {
    assert s.pool.next !in s.at.buf;
    assert NotLogged(s.acc.dropLog, s.pool.next) by {
      forall i | 0 <= i < |s.acc.dropLog| ensures s.acc.dropLog[i].b != s.pool.next {
        assert s.acc.dropLog[i] in s.acc.dropLog;
      }
    }
    hide OncePerEvent, NotLogged, BufInv;
  }

  lemma LogAppend(log: seq<Stamp>, x: Stamp)
    requires OncePerEvent(log) && NotLogged(log, x.b)
    ensures OncePerEvent(log + [x])
    ensures forall b :: NotLogged(log, b) && b != x.b ==> NotLogged(log + [x], b)
  {
  }

  lemma HeldApart(s: State, t: Tid, u: Tid)
    requires BufInv(s) && t in s.pcs && u in s.pcs && t != u && BufOf(s.pcs[t]).Some? && BufOf(s.pcs[u]).Some?
    ensures BufOf(s.pcs[t]).value.data != BufOf(s.pcs[u]).value.data
  {
    OwnBlock(s, t);
    OwnBlock(s, u);
  }

  lemma DropStamped(s: State, s': State, t: Tid)
    requires StampInv(s) && BufInv(s) && Moves(s, s', t) && t in s.pcs && s.pcs[t].StampDrop? && s'.pcs[t].StampTrunc?
    requires s'.pcs[t].ev == s.pcs[t].ev && s'.at.buf == s.at.buf && s'.rec.headers == s.rec.headers
    requires s'.acc.dropLog == s.acc.dropLog + [Stamp(s.pcs[t].ev.data, s'.pcs[t].drops)]
    ensures StampInv(s')
  {
    var b := s.pcs[t].ev.data;
    LogAppend(s.acc.dropLog, Stamp(b, s'.pcs[t].drops));
    OwnBlock(s, t);
    forall u | u in s'.pcs && s'.pcs[u].StampDrop? ensures NotLogged(s'.acc.dropLog, s'.pcs[u].ev.data) {
      HeldApart(s, t, u);
    }
    hide OncePerEvent, NotLogged, BufInv, SlotOk;
  }

  lemma HeaderStamped(s: State, s': State, t: Tid, h: Header)
    requires StampInv(s) && Moves(s, s', t) && t in s.pcs && s.pcs[t].StampTrunc? && s'.pcs[t].Filling?
    requires s'.at.buf == s.at.buf && s'.acc.dropLog == s.acc.dropLog
    requires s'.rec.headers == s.rec.headers[s.pcs[t].ev.data := h] && h.dropCount == s.pcs[t].drops
    ensures StampInv(s')
  {
    hide OncePerEvent, NotLogged;
  }

  lemma BuildKeepsStamps(s: State, t: Tid, a: BuildStep)
    requires StampInv(s) && BufInv(s) && t in s.pcs && BuildEnabled(s, t, a)
    ensures StampInv(DoBuild(s, t, a))
  {
    hide StampInv, BufInv, EncodeHeader;
    var s' := DoBuild(s, t, a);
    match a
    case AllocOk(kind) => NewUnstamped(s, s', t);
    case DoStampDrop => DropStamped(s, s', t);
    case DoStampTrunc(ts) => HeaderStamped(s, s', t, HeaderOf(s, s.pcs[t], ts));
    case _ => SameStamps(s, s', t);
  }

  lemma SubmitKeepsStamps(c: Config, s: State, t: Tid, a: SubmitStep)
    requires StampInv(s) && t in s.pcs && SubmitEnabled(c, s, t, a)
    ensures StampInv(DoSubmit(c, s, t, a))
  {
    hide StampInv, CopyFaults, TouchFaults;
    SameStamps(s, DoSubmit(c, s, t, a), t);
  }

  lemma GetKeepsStamps(c: Config, s: State, t: Tid, a: GetStep)
    requires StampInv(s) && t in s.pcs && GetEnabled(s, t, a)
    ensures StampInv(DoGet(c, s, t, a))
  {
    hide StampInv, CopyFaults;
    SameStamps(s, DoGet(c, s, t, a), t);
  }

  lemma IrpKeepsStamps(s: State, t: Tid, a: IrpStep)
    requires StampInv(s) && t in s.pcs && IrpEnabled(s, t, a)
    ensures StampInv(DoIrp(s, t, a))
  {
    hide StampInv;
    SameStamps(s, DoIrp(s, t, a), t);
  }

  lemma UnloadKeepsStamps(s: State, t: Tid, a: UnloadStep)
    requires StampInv(s) && t in s.pcs && UnloadEnabled(s, t, a)
    ensures StampInv(DoUnload(s, t, a))
  {
    hide StampInv, NoneRunning;
    SameStamps(s, DoUnload(s, t, a), t);
  }

  // ---------------------------------------------------------------- truncation stamps

  /** Every header carries the trunc_count stamp that was logged for its event, once, and nothing else is
      logged. */
  ghost predicate TruncInv(s: State) {
    && OncePerEvent(s.acc.truncLog)
    && (forall x :: x in s.acc.truncLog ==> x.b in s.rec.headers)
    && (forall b :: b in s.rec.headers ==> Stamp(b, s.rec.headers[b].truncCount) in s.acc.truncLog)
  }

  lemma SameTruncs(s: State, s': State)
    requires TruncInv(s) && s'.acc.truncLog == s.acc.truncLog && s'.rec.headers == s.rec.headers
    ensures TruncInv(s')
  {
    hide OncePerEvent;
  }

  lemma TruncStamped(s: State, s': State, b: Buf, h: Header)
    requires TruncInv(s) && b !in s.rec.headers && s'.rec.headers == s.rec.headers[b := h]
    requires s'.acc.truncLog == s.acc.truncLog + [Stamp(b, h.truncCount)]
    ensures TruncInv(s')
  {
    assert NotLogged(s.acc.truncLog, b) by {
      forall i | 0 <= i < |s.acc.truncLog| ensures s.acc.truncLog[i].b != b { assert s.acc.truncLog[i] in s.acc.truncLog; }
    }
    LogAppend(s.acc.truncLog, Stamp(b, h.truncCount));
    hide OncePerEvent, NotLogged;
  }

  lemma BuildKeepsTruncs(s: State, t: Tid, a: BuildStep)
    requires TruncInv(s) && StageInv(s) && BufInv(s) && t in s.pcs && BuildEnabled(s, t, a)
    ensures TruncInv(DoBuild(s, t, a))
  {
    hide TruncInv, StageInv, BufInv, EncodeHeader, WriteBlock;
    var s' := DoBuild(s, t, a);
    WriteKeepsHistory(s);
    if a.DoStampTrunc? {
      AtStage(s, t);
      TruncStamped(s, s', s.pcs[t].ev.data, HeaderOf(s, s.pcs[t], a.timestamp));
    } else {
      SameTruncs(s, s');
    }
  }

  lemma WriteKeepsHistory(s: State)
    ensures forall b, off, data :: WriteBlock(s, b, off, data).acc == s.acc && WriteBlock(s, b, off, data).rec == s.rec
  {
  }

  lemma SubmitKeepsTruncs(c: Config, s: State, t: Tid, a: SubmitStep)
    requires TruncInv(s) && t in s.pcs && SubmitEnabled(c, s, t, a)
    ensures TruncInv(DoSubmit(c, s, t, a))
  {
    hide TruncInv, CopyFaults, TouchFaults;
    SameTruncs(s, DoSubmit(c, s, t, a));
  }

  lemma GetKeepsTruncs(c: Config, s: State, t: Tid, a: GetStep)
    requires TruncInv(s) && t in s.pcs && GetEnabled(s, t, a)
    ensures TruncInv(DoGet(c, s, t, a))
  {
    hide TruncInv, CopyFaults;
    SameTruncs(s, DoGet(c, s, t, a));
  }

  lemma IrpKeepsTruncs(s: State, t: Tid, a: IrpStep)
    requires TruncInv(s) && t in s.pcs && IrpEnabled(s, t, a)
    ensures TruncInv(DoIrp(s, t, a))
  {
    hide TruncInv;
    SameTruncs(s, DoIrp(s, t, a));
  }

  lemma UnloadKeepsTruncs(s: State, t: Tid, a: UnloadStep)
    requires TruncInv(s) && t in s.pcs && UnloadEnabled(s, t, a)
    ensures TruncInv(DoUnload(s, t, a))
  {
    hide TruncInv, NoneRunning;
    SameTruncs(s, DoUnload(s, t, a));
  }
}
