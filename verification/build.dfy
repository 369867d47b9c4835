/** Event construction in place: packed-offset writes into a zeroed buffer. */
module EventBuild {
  import opened Wire
  import opened Layout
  import opened EventRecords
  import opened KernelStrings

  /** DROP_COUNT and TRUNC_COUNT. */
  class Counters {
    var drop: u32
    var trunc: u32

    constructor ()
      ensures drop == 0 && trunc == 0
    {
      drop, trunc := 0, 0;
    }

    method CountTruncation()
      modifies this`trunc
      ensures trunc == Add32(old(trunc), 1)
    {
      trunc := (trunc + 1) % 0x1_0000_0000;
    }

    method CountDrop()
      modifies this`drop
      ensures drop == Add32(old(drop), 1)
    {
      drop := (drop + 1) % 0x1_0000_0000;
    }
  }

  /** What the kernel tells a callback: current process, clock, and whether the pool is exhausted. */
  datatype Env = Env(pid: u32, timestamp: i64, oom: bool)

  // ---------------------------------------------------------------- writes

  method ZeroFill(a: array<byte>)
    modifies a
    ensures a[..] == Zeros(a.Length)
  {
    for i := 0 to a.Length
      invariant forall j :: 0 <= j < i ==> a[j] == 0
    {
      a[i] := 0;
    }
  }

  /** `ptr::write` and `copy_nonoverlapping` at a byte offset. */
  method WriteAt(a: array<byte>, off: nat, data: seq<byte>)
    requires off + |data| <= a.Length
    modifies a
    ensures a[..] == Splice(old(a[..]), off, data)
  {
    for i := 0 to |data|
      invariant forall j :: 0 <= j < i ==> a[off + j] == data[j]
      invariant forall j :: 0 <= j < off || off + i <= j < a.Length ==> a[j] == old(a[j])
    {
      a[off + i] := data[i];
    }
    assert a[..off] == old(a[..off]) && a[off..off + |data|] == data && a[off + |data|..] == old(a[off + |data|..]);
  }

  /** A buffer holds a structure of the given kind with the given fields. */
  ghost predicate Holds(bytes: seq<byte>, k: EventKind, fs: seq<seq<byte>>) {
    Fits(fs, Widths(k)) && bytes == Pack(fs)
  }

  lemma Put(k: EventKind, fs: seq<seq<byte>>, i: nat, data: seq<byte>, f: seq<byte>)
    requires Fits(fs, Widths(k)) && i < |fs| && |data| <= |fs[i]| && data + fs[i][|data|..] == f
    ensures Offset(Widths(k), i) + |data| <= |Pack(fs)|
    ensures Holds(Splice(Pack(fs), Offset(Widths(k), i), data), k, fs[i := f])
  {
    hide Widths, Pack, Offset, Splice;
    SpliceField(fs, Widths(k), i, data);
  }

  // ---------------------------------------------------------------- header.rs

  /** The header of an event built from its structure. */
  function HeaderFor(k: EventKind, timestamp: i64, drop: u32, trunc: u32): Header {
    NewHeader(k, EventSize(k), timestamp, drop, trunc)
  }

  /** `make_header`: both counters move into the header. */
  method MakeHeader(c: Counters, k: EventKind, timestamp: i64) returns (h: Header)
    modifies c
    ensures h == HeaderFor(k, timestamp, old(c.drop), old(c.trunc)) && c.drop == 0 && c.trunc == 0
    ensures h.version == 6 && h.timestamp == timestamp && h.dropCount == old(c.drop) && h.truncCount == old(c.trunc)
    ensures k.ProcessCreate? ==> h.typeCode == 1 && h.size == 10672
    ensures k.ProcessExit? ==> h.typeCode == 2 && h.size == 32
    ensures k.ImageLoad? ==> h.typeCode == 3 && h.size == 1070
    ensures k.RegistryModify? ==> h.typeCode == 4 && h.size == 1580
  {
    var drop := c.drop;
    c.drop := 0;
    var trunc := c.trunc;
    c.trunc := 0;
    h := HeaderFor(k, timestamp, drop, trunc);
  }

  /** The fields of a fresh event. */
  function Blank(k: EventKind, h: Header): seq<seq<byte>> { ZeroFields(Widths(k))[0 := EncodeHeader(h)] }

  lemma BlankHolds(k: EventKind, h: Header)
    requires HasLayout(k)
    ensures HEADER_SIZE <= EventSize(k)
    ensures Holds(Splice(Zeros(EventSize(k)), 0, EncodeHeader(h)), k, Blank(k, h))
  {
    hide EncodeHeader, Splice;
    LayoutSizes(k);
    JoinedZeros(Widths(k), |Widths(k)|);
    Put(k, ZeroFields(Widths(k)), 0, EncodeHeader(h), EncodeHeader(h));
  }

  /** `alloc_event_for`: on failure the loss is counted and nothing is stamped; on success the buffer is
      all zeros but for the header, which takes both counters. */
  method AllocEventFor(c: Counters, k: EventKind, env: Env) returns (evt: array?<byte>)
    requires HasLayout(k)
    modifies c
    ensures evt == null <==> env.oom
    ensures env.oom ==> c.drop == Add32(old(c.drop), 1) && c.trunc == old(c.trunc)
    ensures !env.oom ==> c.drop == 0 && c.trunc == 0
    ensures evt != null ==> fresh(evt) && Holds(evt[..], k, Blank(k, HeaderFor(k, env.timestamp, old(c.drop), old(c.trunc))))
  {
    hide Blank, Holds, Pack, Widths, EncodeHeader, Splice;
    if env.oom {
      c.CountDrop();
      return null;
    }
    var buf := new byte[EventSize(k)];
    ZeroFill(buf);
    var h := MakeHeader(c, k, env.timestamp);
    BlankHolds(k, h);
    WriteAt(buf, 0, EncodeHeader(h));
    return buf;
  }

  // ---------------------------------------------------------------- bounded string copies

  /** `copy_unicode_into` and `copy_unicode_string_into`: as many units as fit below the reserved slot; a
      longer source is counted. */
  method CopyUnicodeInto(c: Counters, src: PUnicodeString, dst: array<byte>, off: nat, max: nat) returns (n: nat)
    requires max > 0 && off + 2 * max <= dst.Length
    modifies c`trunc, dst
    ensures n == |Cut(Units(src), max)|
    ensures dst[..] == Splice(old(dst[..]), off, UnitBytes(Cut(Units(src), max)))
    ensures c.trunc == Add32(old(c.trunc), CutCount(Units(src), max))
  {
    assert Splice(dst[..], off, UnitBytes([])) == dst[..];
    if src == None { return 0; }
    if src.value.buffer == None || src.value.length == 0 { return 0; }
    hide Splice, UnitBytes;
    var chars := src.value.length / 2;
    n := if chars < max - 1 then chars else max - 1;
    if chars > n { c.CountTruncation(); }
    assert src.value.buffer.value[..n] == Cut(Units(src), max);
    WriteAt(dst, off, UnitBytes(src.value.buffer.value[..n]));
  }

  /** `copy_unicode_string_into`: units and length, or nothing. */
  function TextWrites(src: PUnicodeString, i: nat, max: nat): seq<FieldWrite>
    requires max > 0
  {
    var us := Cut(Units(src), max);
    if Absent(src) then [] else [FieldWrite(i, UnitBytes(us))] + [FieldWrite(i + 1, LE(|us|, 2))]
  }

  /** `copy_unicode_into` followed by the write of its result. */
  function NameWrites(src: PUnicodeString, i: nat, max: nat): seq<FieldWrite>
    requires max > 0
  {
    var us := Cut(Units(src), max);
    (if Absent(src) then [] else [FieldWrite(i, UnitBytes(us))]) + [FieldWrite(i + 1, LE(|us|, 2))]
  }

  /** The buffer holds a blank event with header `h` and the writes `log` applied, first to last. */
  ghost predicate Wrote(bytes: seq<byte>, k: EventKind, h: Header, log: seq<FieldWrite>) {
    Holds(bytes, k, PutAll(Blank(k, h), log))
  }

  lemma LogOne(k: EventKind, h: Header, log: seq<FieldWrite>, i: nat, data: seq<byte>)
    requires Fits(PutAll(Blank(k, h), log), Widths(k)) && i < |Widths(k)| && |data| <= Widths(k)[i]
    ensures var m := Pack(PutAll(Blank(k, h), log)); var off := Offset(Widths(k), i);
            off + Widths(k)[i] <= |m| && Wrote(Splice(m, off, data), k, h, log + [FieldWrite(i, data)])
  {
    hide Widths, Pack, Splice, Offset, Blank;
    var fs := PutAll(Blank(k, h), log);
    SpliceField(fs, Widths(k), i, data);
    FieldOfPack(fs, Widths(k), i);
    OffsetGrows(Widths(k), i, |Widths(k)|);
    assert (log + [FieldWrite(i, data)])[..|log|] == log;
  }

  /** The front of field `i`. */
  method WriteField(evt: array<byte>, k: EventKind, i: nat, data: seq<byte>, ghost h: Header, ghost log: seq<FieldWrite>)
    returns (ghost more: seq<FieldWrite>)
    requires Wrote(evt[..], k, h, log) && i < |Widths(k)| && |data| <= Widths(k)[i]
    modifies evt
    ensures more == log + [FieldWrite(i, data)] && Wrote(evt[..], k, h, more)
  {
    LogOne(k, h, log, i, data);
    hide Pack, Offset, Splice, Fits, Widths, PutAll, Blank;
    WriteAt(evt, Offset(Widths(k), i), data);
    more := log + [FieldWrite(i, data)];
  }

  /** The units of a string, if there is one, into text field `i`. */
  method CopyUnits(c: Counters, src: PUnicodeString, evt: array<byte>, k: EventKind, i: nat, max: nat, ghost h: Header, ghost log: seq<FieldWrite>)
    returns (n: nat, ghost more: seq<FieldWrite>)
    requires Wrote(evt[..], k, h, log) && i < |Widths(k)| && 0 < max && Widths(k)[i] == 2 * max
    modifies c`trunc, evt
    ensures n == |Cut(Units(src), max)| && Wrote(evt[..], k, h, more)
    ensures more == log + if Absent(src) then [] else [FieldWrite(i, UnitBytes(Cut(Units(src), max)))]
    ensures c.trunc == Add32(old(c.trunc), CutCount(Units(src), max))
  {
    ghost var us := Cut(Units(src), max);
    LogOne(k, h, log, i, UnitBytes(us));
    assert log + [] == log;
    NothingSpliced(evt[..], Offset(Widths(k), i));
    AbsentIsEmpty(src, max);
    hide Pack, Offset, Splice, Fits, Widths, PutAll, Blank, Cut, CutCount, Units, UnitBytes, Add32;
    n := CopyUnicodeInto(c, src, evt, Offset(Widths(k), i), max);
    more := log + if Absent(src) then [] else [FieldWrite(i, UnitBytes(us))];
  }

  lemma NothingSpliced(m: seq<byte>, off: nat)
    requires off <= |m|
    ensures UnitBytes([]) == [] && Splice(m, off, []) == m
  {
  }

  lemma AbsentIsEmpty(src: PUnicodeString, max: nat)
    requires max > 0
    ensures Absent(src) ==> Units(src) == [] && Cut(Units(src), max) == []
  {
  }

  /** `copy_unicode_string_into`: units and length, or nothing at all. */
  method CopyText(c: Counters, src: PUnicodeString, evt: array<byte>, k: EventKind, i: nat, max: nat, ghost h: Header, ghost log: seq<FieldWrite>)
    returns (ghost more: seq<FieldWrite>)
    requires Wrote(evt[..], k, h, log) && i + 1 < |Widths(k)| && 0 < max && Widths(k)[i] == 2 * max && Widths(k)[i + 1] == 2
    modifies c`trunc, evt
    ensures more == log + TextWrites(src, i, max) && Wrote(evt[..], k, h, more)
    ensures c.trunc == Add32(old(c.trunc), CutCount(Units(src), max))
  {
    hide Wrote, Widths, Cut, CutCount, Units, UnitBytes, LE, Add32;
    var n;
    n, more := CopyUnits(c, src, evt, k, i, max, h, log);
    if !Absent(src) { more := WriteField(evt, k, i + 1, LE(n, 2), h, more); }
  }

  /** `copy_unicode_into` and the write of the length it returns. */
  method CopyName(c: Counters, src: PUnicodeString, evt: array<byte>, k: EventKind, i: nat, max: nat, ghost h: Header, ghost log: seq<FieldWrite>)
    returns (ghost more: seq<FieldWrite>)
    requires Wrote(evt[..], k, h, log) && i + 1 < |Widths(k)| && 0 < max && Widths(k)[i] == 2 * max && Widths(k)[i + 1] == 2
    modifies c`trunc, evt
    ensures more == log + NameWrites(src, i, max) && Wrote(evt[..], k, h, more)
    ensures c.trunc == Add32(old(c.trunc), CutCount(Units(src), max))
  {
    hide Wrote, Widths, Cut, CutCount, Units, UnitBytes, LE, Add32;
    var n;
    n, more := CopyUnits(c, src, evt, k, i, max, h, log);
    more := WriteField(evt, k, i + 1, LE(n, 2), h, more);
  }
}
