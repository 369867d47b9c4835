/** What the agent can add up from the headers it counts. */
module Reports {
  import opened Wire
  import opened Protocol
  import opened Fates
  import opened Accounting
  import opened Contents
  import opened Stamps
  import opened Requests
  import opened Delivery
  import opened Theorems

  // ---------------------------------------------------------------- sums

  ghost function Sum(f: map<Irp, u32>): nat {
    if f == map[] then 0 else var i :| i in f; f[i] + Sum(f - {i})
  }

  lemma {:induction false} SumRemove(f: map<Irp, u32>, i: Irp)
    requires i in f
    ensures Sum(f) == f[i] + Sum(f - {i})
    decreases |f|
  {
    var j :| j in f && Sum(f) == f[j] + Sum(f - {j});
    if i != j {
      SumRemove(f - {j}, i);
      SumRemove(f - {i}, j);
      assert f - {j} - {i} == f - {i} - {j};
    }
  }

  lemma {:induction false} TotalWithout(log: seq<Stamp>, bs: set<Buf>, b: Buf)
    requires NotLogged(log, b)
    ensures TotalOver(log, bs) == TotalOver(log, bs - {b})
  {
    if log != [] {
      TotalWithout(log[..|log| - 1], bs, b);
    }
  }

  lemma {:induction false} TotalRemove(log: seq<Stamp>, bs: set<Buf>, x: Stamp)
    requires OncePerEvent(log) && x in log && x.b in bs
    ensures TotalOver(log, bs) == x.n + TotalOver(log, bs - {x.b})
  {
    var init, last := log[..|log| - 1], log[|log| - 1];
    if last.b == x.b {
      assert last == x;
      TotalWithout(init, bs, x.b);
    } else {
      assert x in init;
      TotalRemove(init, bs, x);
    }
  }

  lemma {:induction false} TotalZeroIff(log: seq<Stamp>, bs: set<Buf>)
    ensures TotalOver(log, bs) == 0 <==> forall x :: x in log && x.b in bs ==> x.n == 0
  {
    if log != [] {
      var init, last := log[..|log| - 1], log[|log| - 1];
      TotalZeroIff(init, bs);
      assert log == init + [last];
    }
  }

  ghost function ValuesOf(f: map<Irp, Buf>): set<Buf> { set i | i in f :: f[i] }

  lemma ValuesRemove(f: map<Irp, Buf>, i: Irp)
    requires i in f && forall j :: j in f && f[i] == f[j] ==> i == j
    ensures f[i] in ValuesOf(f) && ValuesOf(f - {i}) == ValuesOf(f) - {f[i]}
  {
    forall b | b in ValuesOf(f) && b != f[i] ensures b in ValuesOf(f - {i}) {
      var j :| j in f && f[j] == b;
      assert j in f - {i};
    }
  }

  /** Stamps read through IRPs that carry different events add up to the stamps logged for those events. */
  lemma {:induction false} ReadsAddUp(log: seq<Stamp>, f: map<Irp, Buf>, n: map<Irp, u32>)
    requires OncePerEvent(log) && f.Keys == n.Keys
    requires forall i, j :: i in f && j in f && f[i] == f[j] ==> i == j
    requires forall i :: i in f ==> exists x :: x in log && x.b == f[i] && x.n == n[i]
    ensures Sum(n) == TotalOver(log, ValuesOf(f))
    decreases |f|
  {
    if n == map[] {
      assert ValuesOf(f) == {};
      TotalZeroIff(log, {});
    } else {
      var i :| i in n;
      var x :| x in log && x.b == f[i] && x.n == n[i];
      SumRemove(n, i);
      ValuesRemove(f, i);
      hide ValuesOf, OncePerEvent;
      TotalRemove(log, ValuesOf(f), x);
      ReadsAddUp(log, f - {i}, n - {i});
    }
  }

  // ---------------------------------------------------------------- what was read

  /** A get-event request that succeeded. */
  ghost predicate Succeeded(s: State, i: Irp) {
    i in s.io.completed && IsGet(s, i) && s.io.completed[i].status == Success
  }

  /** The header at the front of the caller's buffer. */
  ghost function ReadHeader(s: State, i: Irp): Header {
    if i in s.io.sysbuf && |s.io.sysbuf[i]| >= HEADER_SIZE then DecodeHeader(s.io.sysbuf[i]) else Header(0, 0, 0, 0, 0, 0)
  }

  ghost function ReadDrops(s: State): map<Irp, u32> { map i | i in s.io.completed && Succeeded(s, i) :: ReadHeader(s, i).dropCount }
  ghost function ReadTruncs(s: State): map<Irp, u32> { map i | i in s.io.completed && Succeeded(s, i) :: ReadHeader(s, i).truncCount }

  /** The events the agent has read. */
  ghost function ReadEvents(s: State): map<Irp, Buf> {
    map i | i in s.io.completed && Succeeded(s, i) && i in s.rec.served :: s.rec.served[i]
  }

  ghost function UnreadEvents(s: State): set<Buf> { set b | b in s.at.buf && b !in ValuesOf(ReadEvents(s)) }

  /** Both stamps in the header that was read are logged for the event it carries. */
  ghost predicate ReadLogged(s: State, i: Irp) {
    && i in s.rec.served
    && Stamp(s.rec.served[i], ReadHeader(s, i).dropCount) in s.acc.dropLog
    && Stamp(s.rec.served[i], ReadHeader(s, i).truncCount) in s.acc.truncLog
  }

  lemma ReadCarries(s: State, i: Irp)
    requires OutcomeInv(s) && ReceiptInv(s) && ContentInv(s) && RequestInv(s) && StampInv(s) && TruncInv(s) && Succeeded(s, i)
    ensures ReadLogged(s, i)
  {
    Carries(s, i) by { hide *; }
    hide OutcomeInv, ReceiptInv, ContentInv, RequestInv, OncePerEvent, NotLogged, DecodeHeader;
  }

  lemma ReadDistinct(s: State)
    requires ReceiptInv(s)
    ensures forall i, j :: i in s.rec.served && j in s.rec.served && s.rec.served[i] == s.rec.served[j] ==> i == j
  {
    hide Received, RefusedBy, Delivers;
  }

  /** Losses or cuts against what the agent read, for one of the two counters. */
  lemma Reported(s: State, counter: u32, log: seq<Stamp>, events: nat, counts: map<Irp, u32>)
    requires Accounted(counter, log, events) && OncePerEvent(log) && events < 0x1_0000_0000
    requires forall x :: x in log ==> x.b in s.at.buf
    requires counts.Keys == ReadEvents(s).Keys
    requires forall i :: i in counts ==> Stamp(ReadEvents(s)[i], counts[i]) in log
    requires forall i, j :: i in counts && j in counts && ReadEvents(s)[i] == ReadEvents(s)[j] ==> i == j
    ensures events == Sum(counts) + TotalOver(log, UnreadEvents(s)) + counter
    ensures Sum(counts) == events <==> counter == 0 && forall x :: x in log && x.b in UnreadEvents(s) ==> x.n == 0
  {
    var f := ReadEvents(s);
    forall i | i in f ensures exists x :: x in log && x.b == f[i] && x.n == counts[i] {
      assert Stamp(f[i], counts[i]) in log;
    }
    hide ReadEvents, OncePerEvent, Accounted, Sum;
    ReadsAddUp(log, f, counts);
    TotalSplit(log, ValuesOf(f), UnreadEvents(s));
    TotalZeroIff(log, UnreadEvents(s));
    Congruent(counter, log, events);
  }

  lemma ReadFacts(s: State)
    requires OutcomeInv(s) && ReceiptInv(s) && ContentInv(s) && RequestInv(s) && StampInv(s) && TruncInv(s)
    ensures ReadDrops(s).Keys == ReadEvents(s).Keys && ReadTruncs(s).Keys == ReadEvents(s).Keys
    ensures forall i :: i in ReadDrops(s) ==> Stamp(ReadEvents(s)[i], ReadDrops(s)[i]) in s.acc.dropLog
    ensures forall i :: i in ReadTruncs(s) ==> Stamp(ReadEvents(s)[i], ReadTruncs(s)[i]) in s.acc.truncLog
    ensures forall i, j :: i in ReadEvents(s) && j in ReadEvents(s) && ReadEvents(s)[i] == ReadEvents(s)[j] ==> i == j
  {
    hide *;
    forall i | Succeeded(s, i) ensures ReadLogged(s, i) { ReadCarries(s, i); }
    ReadDistinct(s);
    ReadMaps(s);
  }

  lemma ReadMaps(s: State)
    requires forall i :: Succeeded(s, i) ==> ReadLogged(s, i)
    requires forall i, j :: i in s.rec.served && j in s.rec.served && s.rec.served[i] == s.rec.served[j] ==> i == j
    ensures ReadDrops(s).Keys == ReadEvents(s).Keys && ReadTruncs(s).Keys == ReadEvents(s).Keys
    ensures forall i :: i in ReadDrops(s) ==> Stamp(ReadEvents(s)[i], ReadDrops(s)[i]) in s.acc.dropLog
    ensures forall i :: i in ReadTruncs(s) ==> Stamp(ReadEvents(s)[i], ReadTruncs(s)[i]) in s.acc.truncLog
    ensures forall i, j :: i in ReadEvents(s) && j in ReadEvents(s) && ReadEvents(s)[i] == ReadEvents(s)[j] ==> i == j
  {
    hide ReadHeader;
    assert forall i :: i in ReadDrops(s) ==> ReadLogged(s, i);
    assert forall i :: i in ReadTruncs(s) ==> ReadLogged(s, i);
  }

  lemma LogFacts(s: State)
    requires StampInv(s) && TruncInv(s) && CountInv(s) && StageInv(s)
    ensures Accounted(s.sh.drop, s.acc.dropLog, |s.acc.counted|) && OncePerEvent(s.acc.dropLog)
    ensures Accounted(s.sh.trunc, s.acc.truncLog, s.acc.cuts) && OncePerEvent(s.acc.truncLog)
    ensures forall x :: x in s.acc.dropLog ==> x.b in s.at.buf
    ensures forall x :: x in s.acc.truncLog ==> x.b in s.at.buf
  {
    hide OncePerEvent, NotLogged, Stage, Distinct, Accounted;
  }

  /** Drop counts, as the agent reads them: without wrap-around, the `drop_count` fields in the buffers of its
      successful requests add up to the counted losses if and only if the counter is zero and every event
      it has not read carries a zero stamp; in general they fall short by exactly those two. */
  lemma DropsReportedIff(c: Config, s: State)
    requires Reachable(c, s) && |s.acc.counted| < 0x1_0000_0000
    ensures |s.acc.counted| == Sum(ReadDrops(s)) + TotalOver(s.acc.dropLog, UnreadEvents(s)) + s.sh.drop
    ensures Sum(ReadDrops(s)) == |s.acc.counted|
            <==> s.sh.drop == 0 && forall x :: x in s.acc.dropLog && x.b in UnreadEvents(s) ==> x.n == 0
  {
    hide *;
    Families(c, s);
    ReadFacts(s);
    LogFacts(s);
    Reported(s, s.sh.drop, s.acc.dropLog, |s.acc.counted|, ReadDrops(s));
  }

  /** The same for `trunc_count` and the fields cut. */
  lemma TruncsReportedIff(c: Config, s: State)
    requires Reachable(c, s) && s.acc.cuts < 0x1_0000_0000
    ensures s.acc.cuts == Sum(ReadTruncs(s)) + TotalOver(s.acc.truncLog, UnreadEvents(s)) + s.sh.trunc
    ensures Sum(ReadTruncs(s)) == s.acc.cuts
            <==> s.sh.trunc == 0 && forall x :: x in s.acc.truncLog && x.b in UnreadEvents(s) ==> x.n == 0
  {
    hide *;
    Families(c, s);
    ReadFacts(s);
    LogFacts(s);
    Reported(s, s.sh.trunc, s.acc.truncLog, s.acc.cuts, ReadTruncs(s));
  }
}
