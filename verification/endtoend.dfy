/** From the emitter's writes to the agent's reading, across the protocol. */
module EndToEnd {
  import opened Wire
  import opened Layout
  import opened EventRecords
  import opened EventBuild
  import opened Protocol
  import opened Requests
  import opened Theorems
  import opened Stamps
  import opened Spelling
  import opened Production
  import opened KernelStrings

  /** The block of a thread that is filling an event of kind `k`. */
  ghost predicate Builds(s: State, t: Tid, k: EventKind, fs: seq<seq<byte>>) {
    && HasLayout(k) && t in s.pcs && s.pcs[t].Filling? && s.pcs[t].ev.size == EventSize(k)
    && s.pcs[t].ev.data in s.pool.mem && Holds(s.pool.mem[s.pcs[t].ev.data], k, fs)
  }

  /** Every field write of an emitter is a step of the protocol: it lies behind the header and inside the
      block, and it changes that field and no other. */
  lemma FieldWriteIsStep(c: Config, s: State, t: Tid, k: EventKind, fs: seq<seq<byte>>, i: nat, data: seq<byte>)
    requires Builds(s, t, k, fs) && 0 < i < |fs| && |data| <= |fs[i]|
    ensures var a := Build(t, WriteField(Offset(Widths(k), i), data));
            Enabled(c, s, a) && Builds(Do(c, s, a), t, k, Overwrite(fs, i, data))
  {
    LayoutSizes(k);
    Put(k, fs, i, data, data + fs[i][|data|..]);
    BehindHeader(k, i);
    BlockSize(k, fs);
    hide Widths, Offset, Pack, Splice, EventSize;
  }

  lemma BlockSize(k: EventKind, fs: seq<seq<byte>>)
    requires HasLayout(k) && Fits(fs, Widths(k))
    ensures |Pack(fs)| == EventSize(k)
  {
    LayoutSizes(k);
    JoinedSize(fs, Widths(k), |fs|);
  }

  lemma BehindHeader(k: EventKind, i: nat)
    requires HasLayout(k) && 0 < i < |Widths(k)|
    ensures HEADER_SIZE <= Offset(Widths(k), i)
  {
    assert Offset(Widths(k), 0) == 0 && Widths(k)[0] == HEADER_SIZE;
    hide Widths;
    OffsetGrows(Widths(k), 0, i);
  }

  /** What the stamp leaves in a fresh block is a blank event with that header. */
  lemma StampIsBlank(c: Config, s: State, t: Tid, k: EventKind, timestamp: i64)
    requires HasLayout(k) && t in s.pcs && s.pcs[t].StampTrunc? && s.pcs[t].kind == k && s.pcs[t].ev.size == EventSize(k)
    requires s.pcs[t].ev.data in s.pool.mem && s.pool.mem[s.pcs[t].ev.data] == Zeros(EventSize(k))
    ensures var a := Build(t, DoStampTrunc(timestamp));
            && Enabled(c, s, a)
            && Builds(Do(c, s, a), t, k, Blank(k, HeaderFor(k, timestamp, s.pcs[t].drops, s.sh.trunc)))
  {
    var h := HeaderFor(k, timestamp, s.pcs[t].drops, s.sh.trunc);
    BlankHolds(k, h);
    assert EventSize(k) % 0x1_0000_0000 == EventSize(k);
    assert HeaderOf(s, s.pcs[t], timestamp) == h;
    hide Widths, Blank, Pack, Splice, EventSize, EncodeHeader, TypeCode;
  }

  /** The first `n` bytes of the caller's buffer are event `e`, with the header it was stamped with. */
  ghost predicate Reads(s: State, irp: Irp, n: nat, e: Event) {
    && irp in s.io.sysbuf && n <= |s.io.sysbuf[irp]| && Decode(s.io.sysbuf[irp][..n]) == Some(e)
    && n == EventSize(e.Kind()) == e.header.size
    && irp in s.rec.served && s.rec.served[irp] in s.rec.headers && e.header == s.rec.headers[s.rec.served[irp]]
  }

  /** End to end: whatever the interleaving, an agent that reads `Information` bytes of a successful
      request decodes exactly the event the producer built. */
  lemma AgentReadsEvent(c: Config, s: State, irp: Irp, e: Event)
    requires Reachable(c, s) && IsGet(s, irp) && irp in s.io.completed && s.io.completed[irp].status == Success
    requires e.Valid() && irp in s.rec.served && s.rec.served[irp] in s.rec.built
    requires s.rec.built[s.rec.served[irp]] == Encode(e)
    ensures Reads(s, irp, s.io.completed[irp].info, e)
  {
    DeliveredBytes(c, s, irp) by { hide *; }
    EventRoundTrip(e) by { hide *; }
    EncodeStarts(e) by { hide *; }
    var n := s.io.completed[irp].info;
    HeaderOfPrefix(s.io.sysbuf[irp], n);
    hide Reachable, OncePerEvent, DecodeHeader, Decode, Encode;
  }

  lemma HeaderOfPrefix(s: seq<byte>, n: nat)
    requires HEADER_SIZE <= n <= |s|
    ensures DecodeHeader(s[..n]) == DecodeHeader(s)
  {
    assert s[..n][0..2] == s[0..2] && s[..n][2..4] == s[2..4] && s[..n][4..12] == s[4..12];
    assert s[..n][12..16] == s[12..16] && s[..n][16..20] == s[16..20] && s[..n][20..24] == s[20..24];
  }

  // ---------------------------------------------------------------- the writes of an emitter

  /** Where the packed structure puts them. */
  function AsWrites(k: EventKind, ws: seq<FieldWrite>): (r: seq<Write>)
    requires AllFit(k, ws)
    ensures |r| == |ws|
  {
    seq(|ws|, n requires 0 <= n < |ws| => Write(Offset(Widths(k), ws[n].field), ws[n].data))
  }

  lemma {:induction false} AppliedIsPacked(k: EventKind, fs: seq<seq<byte>>, ws: seq<FieldWrite>)
    requires Fits(fs, Widths(k)) && AllFit(k, ws)
    ensures Fits(PutAll(fs, ws), Widths(k)) && Applied(Pack(fs), AsWrites(k, ws)) == Pack(PutAll(fs, ws))
  {
    hide Widths, Pack, Splice, Offset;
    if ws != [] {
      var init, w := ws[..|ws| - 1], ws[|ws| - 1];
      AppliedIsPacked(k, fs, init);
      assert AsWrites(k, ws)[..|ws| - 1] == AsWrites(k, init);
      SpliceField(PutAll(fs, init), Widths(k), w.field, w.data);
    }
  }

  lemma SpelledBytes(k: EventKind, ws: seq<FieldWrite>, e: Event, h: Header)
    requires Spells(k, ws, e) && HeaderFits(h, k)
    ensures e.WithHeader(h).Valid() && Applied(Stamped(k, h), AsWrites(k, ws)) == Encode(e.WithHeader(h))
  {
    BlankHolds(k, h);
    AppliedIsPacked(k, Blank(k, h), ws);
    hide Applied, PutAll, Pack, Blank, Fields, Splice, EncodeHeader, Event.Valid;
  }

  /** Thread `t` makes the writes `ws` of an emitter between its allocation at step i and its submission at
      step j. */
  ghost predicate Emits(steps: seq<Step>, i: nat, j: nat, t: Tid, k: EventKind, ws: seq<FieldWrite>) {
    Produces(steps, i, j, t, k) && AllFit(k, ws) && WritesOf(steps, i + 1, j, t) == AsWrites(k, ws)
  }

  /** Construction: in every run, the bytes submitted by a producer whose own writes spell `e` are the
      encoding of `e` with the header it stamped, whatever the other threads do. */
  lemma SubmittedIsEncoded(
    c: Config, states: seq<State>, steps: seq<Step>, i: nat, j: nat, m: nat, t: Tid, k: EventKind, ws: seq<FieldWrite>, e: Event)
    requires IsRun(c, states, steps) && Emits(steps, i, j, t, k, ws) && Spells(k, ws, e) && j < m <= |steps|
    ensures var s, b := states[m], states[i].pool.next;
            && b in s.rec.built && b in s.rec.headers
            && e.WithHeader(s.rec.headers[b]).Valid() && s.rec.built[b] == Encode(e.WithHeader(s.rec.headers[b]))
  {
    hide Enabled, Do, Init, Spells, AsWrites, Applied, Stamped, Encode, Event.Valid, WritesOf, AllFit, HeaderFits;
    ProducedBytes(c, states, steps, i, j, m, t, k);
    SpelledBytes(k, ws, e, states[m].rec.headers[states[i].pool.next]);
  }

  /** End to end: a producer makes an emitter's writes under any interference; a get-event request that
      carries its event and succeeds, at any later time, gives the agent bytes that decode to exactly that
      event with the header stamped for it. */
  lemma AgentReadsEmitted(
    c: Config, states: seq<State>, steps: seq<Step>, i: nat, j: nat, m: nat, t: Tid, k: EventKind, ws: seq<FieldWrite>, e: Event,
    irp: Irp)
    requires IsRun(c, states, steps) && Emits(steps, i, j, t, k, ws) && Spells(k, ws, e) && j < m <= |steps|
    requires var s := states[m];
             && IsGet(s, irp) && irp in s.io.completed && s.io.completed[irp].status == Success
             && irp in s.rec.served && s.rec.served[irp] == states[i].pool.next
    ensures var s, b := states[m], states[i].pool.next;
            b in s.rec.headers && Reads(s, irp, s.io.completed[irp].info, e.WithHeader(s.rec.headers[b]))
  {
    SubmittedIsEncoded(c, states, steps, i, j, m, t, k, ws, e) by { hide *; }
    assert Reachable(c, states[m]) by { RunReaches(c, states, steps, m); }
    hide IsRun, Emits, Spells, Reads, Encode, Event.Valid, Reachable;
    AgentReadsEvent(c, states[m], irp, e.WithHeader(states[m].rec.headers[states[i].pool.next]));
  }

  /** The request succeeded and carries event `b`. */
  ghost predicate Got(s: State, irp: Irp, b: Buf) {
    && IsGet(s, irp) && irp in s.io.completed && s.io.completed[irp].status == Success
    && irp in s.rec.served && s.rec.served[irp] == b
  }

  /** What the agent decodes from its first `n` bytes. */
  ghost function Seen(s: State, irp: Irp, n: nat): Option<Event> {
    if irp in s.io.sysbuf && n <= |s.io.sysbuf[irp]| then Decode(s.io.sysbuf[irp][..n]) else None
  }

  /** `r` is the source, or its first units up to the reserved one. */
  predicate Keeps(r: seq<u16>, us: seq<u16>, max: nat) { r <= us && |r| == if |us| < max then |us| else max - 1 }

  /** What a registry value write shows, field by field. */
  predicate ShowsSetValue(d: Event, h: Header, info: SetValueInfo, pid: u32) {
    && d.RegistryModified? && d.header == h && d.processId == pid && d.operation == 1
    && d.valueType == info.valueType && d.dataSize == info.dataSize
    && Keeps(d.keyPath, info.key.Path(), 512) && Keeps(d.valueName, Units(info.valueName), 128)
    && (info.data == None ==> d.preview == [])
    && (info.data.Some? ==> d.preview <= info.data.value && |d.preview| == if info.dataSize < 256 then info.dataSize else 256)
  }

  lemma SetValueShown(info: SetValueInfo, pid: u32, h: Header)
    requires info.Valid()
    ensures ShowsSetValue(SetValueWith(info, pid, h), h, info, pid)
  {
    hide KeyObject.Path, Units, SetValueInfo.Preview;
  }

  /** A registry value write, from the callback's arguments to the agent's reading. */
  lemma SetValueReachesAgent(
    c: Config, states: seq<State>, steps: seq<Step>, i: nat, j: nat, m: nat, t: Tid, info: SetValueInfo, pid: u32, irp: Irp)
    requires IsRun(c, states, steps) && info.Valid() && j < m <= |steps|
    requires Emits(steps, i, j, t, RegistryModify, SetValueWrites(info, pid)) && Got(states[m], irp, states[i].pool.next)
    ensures var s, b := states[m], states[i].pool.next; var seen := Seen(s, irp, s.io.completed[irp].info);
            b in s.rec.headers && seen.Some? && ShowsSetValue(seen.value, s.rec.headers[b], info, pid)
  {
    var env := Env(pid, 0, false);
    SetValueSpelled(info, env, 0, 0) by { hide *; }
    AgentReadsEmitted(c, states, steps, i, j, m, t, RegistryModify, SetValueWrites(info, pid), SetValueEvent(info, env, 0, 0), irp)
      by { hide IsRun, Emits, Spells, Reads, SetValueWrites; }
    hide IsRun, Emits, Spells, SetValueWrites, ShowsSetValue, Decode;
    SetValueShown(info, pid, states[m].rec.headers[states[i].pool.next]);
  }

  /** What a process creation shows. */
  predicate ShowsCreate(d: Event, h: Header, pid: u32, info: CreateInfo) {
    && d.ProcessCreated? && d.header == h && d.processId == pid
    && d.parentId == info.parent % 0x1_0000_0000 && d.creatorId == info.creator % 0x1_0000_0000
    && Keeps(d.imagePath, Units(info.imageName), 512) && Keeps(d.commandLine, Units(info.commandLine), 4096)
    && d.parentImage == [] && d.userSid == [] && d.integrity == 0xFFFF_FFFF
  }

  lemma CreateShown(pid: u32, info: CreateInfo, h: Header)
    ensures ShowsCreate(CreateWith(pid, info, h), h, pid, info)
  {
    hide Units;
  }

  /** A process creation, likewise. */
  lemma CreateReachesAgent(
    c: Config, states: seq<State>, steps: seq<Step>, i: nat, j: nat, m: nat, t: Tid, pid: u32, info: CreateInfo, irp: Irp)
    requires IsRun(c, states, steps) && j < m <= |steps|
    requires Emits(steps, i, j, t, ProcessCreate, CreateWrites(pid, info)) && Got(states[m], irp, states[i].pool.next)
    ensures var s, b := states[m], states[i].pool.next; var seen := Seen(s, irp, s.io.completed[irp].info);
            b in s.rec.headers && seen.Some? && ShowsCreate(seen.value, s.rec.headers[b], pid, info)
  {
    var env := Env(pid, 0, false);
    CreateSpelled(pid, info, env, 0, 0) by { hide *; }
    AgentReadsEmitted(c, states, steps, i, j, m, t, ProcessCreate, CreateWrites(pid, info), CreateEvent(pid, info, env, 0, 0), irp)
      by { hide IsRun, Emits, Spells, Reads, CreateWrites; }
    hide IsRun, Emits, Spells, CreateWrites, ShowsCreate, Decode;
    CreateShown(pid, info, states[m].rec.headers[states[i].pool.next]);
  }

  /** What a process exit shows; a null process reports code 0. */
  lemma ExitReachesAgent(
    c: Config, states: seq<State>, steps: seq<Step>, i: nat, j: nat, m: nat, t: Tid, pid: u32, status: Option<u32>, irp: Irp)
    requires IsRun(c, states, steps) && j < m <= |steps|
    requires Emits(steps, i, j, t, ProcessExit, ExitWrites(pid, if status.Some? then status.value else 0))
    requires Got(states[m], irp, states[i].pool.next)
    ensures var s, b := states[m], states[i].pool.next; var seen := Seen(s, irp, s.io.completed[irp].info);
            && b in s.rec.headers && seen.Some? && seen.value.ProcessExited? && seen.value.header == s.rec.headers[b]
            && seen.value.processId == pid && (status.Some? ==> seen.value.exitCode == status.value)
            && (status == None ==> seen.value.exitCode == 0)
  {
    var env, code: u32 := Env(pid, 0, false), if status.Some? then status.value else 0;
    ExitSpelled(pid, status, env, 0, 0) by { hide *; }
    AgentReadsEmitted(c, states, steps, i, j, m, t, ProcessExit, ExitWrites(pid, code), ExitEvent(pid, status, env, 0, 0), irp)
      by { hide IsRun, Emits, Spells, Reads, ExitWrites; }
    hide IsRun, Emits, Spells, ExitWrites, Decode;
  }

  /** What an image load shows; missing information reads as zero. */
  lemma LoadReachesAgent(
    c: Config, states: seq<State>, steps: seq<Step>, i: nat, j: nat, m: nat, t: Tid, pid: u32, name: PUnicodeString,
    info: Option<ImageInfo>, irp: Irp)
    requires IsRun(c, states, steps) && j < m <= |steps|
    requires Emits(steps, i, j, t, ImageLoad, LoadWrites(pid, name, info)) && Got(states[m], irp, states[i].pool.next)
    ensures var s, b := states[m], states[i].pool.next; var seen := Seen(s, irp, s.io.completed[irp].info);
            && b in s.rec.headers && seen.Some? && seen.value.ImageLoaded? && seen.value.header == s.rec.headers[b]
            && seen.value.processId == pid && Keeps(seen.value.imagePath, Units(name), 512)
            && (info.Some? ==> seen.value.imageBase == info.value.start && seen.value.imageSize == info.value.size)
            && (info == None ==> seen.value.imageBase == 0 && seen.value.imageSize == 0)
  {
    var env := Env(pid, 0, false);
    LoadSpelled(pid, name, info, env, 0, 0) by { hide *; }
    AgentReadsEmitted(c, states, steps, i, j, m, t, ImageLoad, LoadWrites(pid, name, info), LoadEvent(pid, name, info, env, 0, 0), irp)
      by { hide IsRun, Emits, Spells, Reads, LoadWrites; }
    hide IsRun, Emits, Spells, LoadWrites, Decode, Units;
  }
}
