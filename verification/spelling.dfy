/** The emitters' inputs, the events they build, and the writes that spell those events. */
module Spelling {
  import opened Wire
  import opened Layout
  import opened EventRecords
  import opened KernelStrings
  import opened EventBuild

  predicate AllFit(k: EventKind, ws: seq<FieldWrite>) {
    forall n :: 0 <= n < |ws| ==> ws[n].field < |Widths(k)| && |ws[n].data| <= Widths(k)[ws[n].field]
  }

  /** The writes spell event `e`: on a blank event with any header of its kind they leave the fields of `e`
      with that header. */
  ghost predicate Spells(k: EventKind, ws: seq<FieldWrite>, e: Event) {
    && HasLayout(k) && AllFit(k, ws)
    && forall h :: HeaderFits(h, k) ==> var e' := e.WithHeader(h); e'.Valid() && e'.Kind() == k && PutAll(Blank(k, h), ws) == Fields(e')
  }

  /** A buffer written as listed holds the encoding of the event spelled. */
  lemma WroteSpelled(bytes: seq<byte>, k: EventKind, h: Header, ws: seq<FieldWrite>, e: Event)
    requires Wrote(bytes, k, h, ws) && Spells(k, ws, e) && HeaderFits(h, k)
    ensures e.WithHeader(h).Valid() && bytes == Encode(e.WithHeader(h))
  {
    hide PutAll, Blank, Fields, Event.Valid;
  }

  /** A header of kind `k` is one that `make_header` makes. */
  lemma HeaderMade(h: Header, k: EventKind)
    requires HeaderFits(h, k)
    ensures h == HeaderFor(k, h.timestamp, h.dropCount, h.truncCount)
  {
  }

  /** The low 32 bits of a handle. */
  function Id(handle: u64): (id: u32)
    ensures (handle - id) % 0x1_0000_0000 == 0
    ensures handle < 0x1_0000_0000 ==> id == handle
  {
    handle % 0x1_0000_0000
  }

  lemma ZeroNumber(k: nat)
    ensures LE(0, k) == Zeros(k)
  {
    if k > 0 {
      ZeroNumber(k - 1);
      assert LE(0, k) == [0] + LE(0, k - 1);
    }
  }

  lemma EmptyText(max: nat)
    ensures StringField([], max) == Zeros(2 * max)
    ensures ByteField([], max) == Zeros(max)
  {
  }

  lemma AbsentLeaves(src: PUnicodeString, fs: seq<seq<byte>>, i: nat, max: nat)
    requires Absent(src) && max > 0 && i + 1 < |fs| && fs[i] == Zeros(2 * max) && fs[i + 1] == Zeros(2)
    ensures Cut(Units(src), max) == []
    ensures fs == fs[i := StringField([], max)][i + 1 := LE(0, 2)]
  {
    EmptyText(max);
    ZeroNumber(2);
  }

  lemma PutText(fs: seq<seq<byte>>, ws: seq<FieldWrite>, src: PUnicodeString, i: nat, max: nat)
    requires 0 < max < 0x1_0000 && i + 1 < |fs| && PutAll(fs, ws)[i] == Zeros(2 * max) && PutAll(fs, ws)[i + 1] == Zeros(2)
    ensures var us := Cut(Units(src), max); var r := PutAll(fs, ws)[i := StringField(us, max)][i + 1 := LE(|us|, 2)];
            PutAll(fs, ws + TextWrites(src, i, max)) == r && PutAll(fs, ws + NameWrites(src, i, max)) == r
  {
    hide PutAll, Cut, Units, StringField, LE;
    var us := Cut(Units(src), max);
    var ws1 := ws + [FieldWrite(i, UnitBytes(us))];
    StringWritten(us, max);
    if Absent(src) {
      AbsentLeaves(src, PutAll(fs, ws), i, max);
      PutWhole(fs, ws, i + 1, LE(|us|, 2));
      assert ws + [] == ws && ws + NameWrites(src, i, max) == ws + [FieldWrite(i + 1, LE(|us|, 2))];
    } else {
      PutNext(fs, ws, i, UnitBytes(us), StringField(us, max));
      PutWhole(fs, ws1, i + 1, LE(|us|, 2));
      assert ws + TextWrites(src, i, max) == ws1 + [FieldWrite(i + 1, LE(|us|, 2))];
      assert NameWrites(src, i, max) == TextWrites(src, i, max);
    }
  }

  // ---------------------------------------------------------------- process.rs

  function ExitEvent(pid: u32, status: Option<u32>, env: Env, drop: u32, trunc: u32): Event {
    ProcessExited(HeaderFor(ProcessExit, env.timestamp, drop, trunc), pid, if status.Some? then status.value else 0)
  }

  /** `emit_process_exit`. */
  function ExitWrites(pid: u32, code: u32): seq<FieldWrite> { [FieldWrite(1, LE(pid, 4))] + [FieldWrite(2, LE(code, 4))] }

  lemma ExitSpelled(pid: u32, status: Option<u32>, env: Env, drop: u32, trunc: u32)
    ensures Spells(ProcessExit, ExitWrites(pid, if status.Some? then status.value else 0), ExitEvent(pid, status, env, drop, trunc))
  {
    hide LE, EncodeHeader, PutAll;
    var code: u32 := if status.Some? then status.value else 0;
    forall h | HeaderFits(h, ProcessExit)
      ensures PutAll(Blank(ProcessExit, h), ExitWrites(pid, code)) == Blank(ProcessExit, h)[1 := LE(pid, 4)][2 := LE(code, 4)]
    {
      PutFirst(Blank(ProcessExit, h), 1, LE(pid, 4));
      PutWhole(Blank(ProcessExit, h), [FieldWrite(1, LE(pid, 4))], 2, LE(code, 4));
    }
  }

  datatype CreateInfo = CreateInfo(parent: u64, creator: u64, imageName: PUnicodeString, commandLine: PUnicodeString)

  const UNRESOLVED: u32 := 0xFFFF_FFFF

  function CreateEvent(pid: u32, info: CreateInfo, env: Env, drop: u32, trunc: u32): Event {
    ProcessCreated(HeaderFor(ProcessCreate, env.timestamp, drop, trunc), pid, Id(info.parent), Id(info.creator),
                   Cut(Units(info.imageName), 512), Cut(Units(info.commandLine), 4096), [], [], UNRESOLVED)
  }

  function CreateCuts(info: CreateInfo): nat {
    CutCount(Units(info.imageName), 512) + CutCount(Units(info.commandLine), 4096)
  }

  ghost function CreateFields(pid: u32, info: CreateInfo, h: Header): seq<seq<byte>> {
    var image, command := Cut(Units(info.imageName), 512), Cut(Units(info.commandLine), 4096);
    Blank(ProcessCreate, h)[1 := LE(pid, 4)][2 := LE(Id(info.parent), 4)][3 := LE(Id(info.creator), 4)]
    [4 := StringField(image, 512)][5 := LE(|image|, 2)][6 := StringField(command, 4096)][7 := LE(|command|, 2)]
    [12 := LE(UNRESOLVED, 4)]
  }

  lemma CreateFieldsAre(pid: u32, info: CreateInfo, env: Env, drop: u32, trunc: u32)
    ensures var e := CreateEvent(pid, info, env, drop, trunc); e.Valid() && CreateFields(pid, info, e.header) == Fields(e)
  {
    ZeroNumber(2);
    EmptyText(512);
    EmptyText(192);
    hide LE, EncodeHeader, StringField, Cut, Units, Zeros;
  }

  /** The three process ids. */
  function IdWrites(pid: u32, info: CreateInfo): seq<FieldWrite> {
    [FieldWrite(1, LE(pid, 4))] + [FieldWrite(2, LE(Id(info.parent), 4))] + [FieldWrite(3, LE(Id(info.creator), 4))]
  }

  /** `emit_process_create`, in the order of the code. */
  function CreateWrites(pid: u32, info: CreateInfo): seq<FieldWrite> {
    IdWrites(pid, info) + TextWrites(info.imageName, 4, 512) + TextWrites(info.commandLine, 6, 4096) + [FieldWrite(12, LE(UNRESOLVED, 4))]
  }

  lemma PutCreate(pid: u32, info: CreateInfo, h: Header)
    ensures PutAll(Blank(ProcessCreate, h), CreateWrites(pid, info)) == CreateFields(pid, info, h)
  {
    hide PutAll, Cut, Units, StringField, LE, EncodeHeader, TextWrites, Id;
    var fs := Blank(ProcessCreate, h);
    var w1 := [FieldWrite(1, LE(pid, 4))];
    var w2 := w1 + [FieldWrite(2, LE(Id(info.parent), 4))];
    var w3 := w2 + [FieldWrite(3, LE(Id(info.creator), 4))];
    var w4 := w3 + TextWrites(info.imageName, 4, 512);
    var w5 := w4 + TextWrites(info.commandLine, 6, 4096);
    PutFirst(fs, 1, LE(pid, 4));
    PutWhole(fs, w1, 2, LE(Id(info.parent), 4));
    PutWhole(fs, w2, 3, LE(Id(info.creator), 4));
    PutText(fs, w3, info.imageName, 4, 512);
    PutText(fs, w4, info.commandLine, 6, 4096);
    PutWhole(fs, w5, 12, LE(UNRESOLVED, 4));
  }

  lemma CreateSpelled(pid: u32, info: CreateInfo, env: Env, drop: u32, trunc: u32)
    ensures Spells(ProcessCreate, CreateWrites(pid, info), CreateEvent(pid, info, env, drop, trunc))
  {
    CreateWritesFit(pid, info);
    var e := CreateEvent(pid, info, env, drop, trunc);
    forall h | HeaderFits(h, ProcessCreate)
      ensures e.WithHeader(h).Valid() && PutAll(Blank(ProcessCreate, h), CreateWrites(pid, info)) == Fields(e.WithHeader(h))
    {
      HeaderMade(h, ProcessCreate);
      CreateFieldsAre(pid, info, Env(0, h.timestamp, false), h.dropCount, h.truncCount);
      PutCreate(pid, info, h);
      hide *;
      assert e.WithHeader(h) == CreateEvent(pid, info, Env(0, h.timestamp, false), h.dropCount, h.truncCount);
    }
    hide Blank, PutAll, CreateWrites, Fields, HeaderFits, Event.Valid, AllFit;
  }

  /** The event of a process creation, with a given header. */
  function CreateWith(pid: u32, info: CreateInfo, h: Header): Event {
    ProcessCreated(h, pid, Id(info.parent), Id(info.creator), Cut(Units(info.imageName), 512), Cut(Units(info.commandLine), 4096),
                   [], [], UNRESOLVED)
  }

  lemma CreateWritesFit(pid: u32, info: CreateInfo)
    ensures AllFit(ProcessCreate, CreateWrites(pid, info))
  {
    hide LE, Cut, Units, UnitBytes, Id;
  }

  /** The bounded copies of `emit_process_create`, all after the stamp. */
  function CreateCopies(info: CreateInfo): seq<Copy> { TextCopies(info.imageName, 512) + TextCopies(info.commandLine, 4096) }

  lemma CreateCopiesCut(info: CreateInfo)
    ensures Truncated(CreateCopies(info)) == CreateCuts(info)
  {
    hide Truncated, TextCopies, CutCount, Units;
    TextCut(info.imageName, 512);
    TextCut(info.commandLine, 4096);
    TruncatedConcat(TextCopies(info.imageName, 512), TextCopies(info.commandLine, 4096));
  }

  // ---------------------------------------------------------------- image.rs

  datatype ImageInfo = ImageInfo(start: u64, size: u64)

  function LoadEvent(pid: u32, name: PUnicodeString, info: Option<ImageInfo>, env: Env, drop: u32, trunc: u32): Event {
    ImageLoaded(HeaderFor(ImageLoad, env.timestamp, drop, trunc), pid,
                if info.Some? then info.value.start else 0, if info.Some? then info.value.size else 0, Cut(Units(name), 512))
  }

  ghost function LoadFields(pid: u32, name: PUnicodeString, info: Option<ImageInfo>, h: Header): seq<seq<byte>> {
    var image := Cut(Units(name), 512);
    var fs := Blank(ImageLoad, h)[1 := LE(pid, 4)];
    var gs := if info.Some? then fs[2 := LE(info.value.start, 8)][3 := LE(info.value.size, 8)] else fs;
    gs[4 := StringField(image, 512)][5 := LE(|image|, 2)]
  }

  lemma LoadFieldsAre(pid: u32, name: PUnicodeString, info: Option<ImageInfo>, env: Env, drop: u32, trunc: u32)
    ensures var e := LoadEvent(pid, name, info, env, drop, trunc); e.Valid() && LoadFields(pid, name, info, e.header) == Fields(e)
  {
    ZeroNumber(8);
    hide LE, EncodeHeader, StringField, Cut, Units, Zeros;
  }

  /** `emit_image_load`, in the order of the code. */
  function LoadWrites(pid: u32, name: PUnicodeString, info: Option<ImageInfo>): seq<FieldWrite> {
    [FieldWrite(1, LE(pid, 4))] + ImageWrites(info) + TextWrites(name, 4, 512)
  }

  function ImageWrites(info: Option<ImageInfo>): seq<FieldWrite> {
    if info == None then [] else [FieldWrite(2, LE(info.value.start, 8))] + [FieldWrite(3, LE(info.value.size, 8))]
  }

  lemma PutLoad(pid: u32, name: PUnicodeString, info: Option<ImageInfo>, h: Header)
    ensures PutAll(Blank(ImageLoad, h), LoadWrites(pid, name, info)) == LoadFields(pid, name, info, h)
  {
    hide PutAll, Cut, Units, StringField, LE, EncodeHeader, TextWrites;
    var fs, w1 := Blank(ImageLoad, h), [FieldWrite(1, LE(pid, 4))];
    PutFirst(fs, 1, LE(pid, 4));
    if info.Some? {
      var w2 := w1 + [FieldWrite(2, LE(info.value.start, 8))];
      PutWhole(fs, w1, 2, LE(info.value.start, 8));
      PutWhole(fs, w2, 3, LE(info.value.size, 8));
      assert w1 + ImageWrites(info) == w2 + [FieldWrite(3, LE(info.value.size, 8))];
    } else {
      assert w1 + [] == w1;
    }
    PutText(fs, w1 + ImageWrites(info), name, 4, 512);
  }

  lemma LoadWritesFit(pid: u32, name: PUnicodeString, info: Option<ImageInfo>)
    ensures AllFit(ImageLoad, LoadWrites(pid, name, info))
  {
    hide LE, Cut, Units, UnitBytes;
  }

  lemma LoadSpelled(pid: u32, name: PUnicodeString, info: Option<ImageInfo>, env: Env, drop: u32, trunc: u32)
    ensures Spells(ImageLoad, LoadWrites(pid, name, info), LoadEvent(pid, name, info, env, drop, trunc))
  {
    LoadWritesFit(pid, name, info);
    var e := LoadEvent(pid, name, info, env, drop, trunc);
    forall h | HeaderFits(h, ImageLoad)
      ensures e.WithHeader(h).Valid() && PutAll(Blank(ImageLoad, h), LoadWrites(pid, name, info)) == Fields(e.WithHeader(h))
    {
      HeaderMade(h, ImageLoad);
      LoadFieldsAre(pid, name, info, Env(0, h.timestamp, false), h.dropCount, h.truncCount);
      PutLoad(pid, name, info, h);
      hide *;
      assert e.WithHeader(h) == LoadEvent(pid, name, info, Env(0, h.timestamp, false), h.dropCount, h.truncCount);
    }
    hide Blank, PutAll, LoadWrites, Fields, HeaderFits, Event.Valid, AllFit;
  }

  // ---------------------------------------------------------------- registry.rs

  /** The key object of a registry operation, as the configuration manager resolves it. */
  datatype KeyObject = Null | Unresolved | Named(name: PUnicodeString) {
    function Path(): seq<u16> { if Named? then Units(name) else [] }
  }

  /** The bounded copy made before the gate. */
  function KeyCopies(key: KeyObject): seq<Copy> { if key.Named? then TextCopies(key.name, 512) else [] }

  lemma KeyCopiesCut(key: KeyObject)
    ensures Truncated(KeyCopies(key)) == CutCount(key.Path(), 512)
  {
    if key.Named? { TextCut(key.name, 512); }
  }

  datatype SetValueInfo = SetValueInfo(
    key: KeyObject, valueName: PUnicodeString, valueType: u32, dataSize: u32, data: Option<seq<byte>>)
  {
    /** The kernel's promise: data that is not null has `dataSize` bytes. */
    predicate Valid() { data.Some? ==> |data.value| >= dataSize }

    /** The first bytes of the data. */
    function Preview(): (p: seq<byte>)
      requires Valid()
      ensures |p| <= REGISTRY_DATA_PREVIEW_MAX
      ensures data == None ==> p == []
      ensures data.Some? ==> p <= data.value && |p| == if dataSize < 256 then dataSize else 256
    {
      if data == None then [] else data.value[..if dataSize < 256 then dataSize else 256]
    }

    /** One exactly when the preview leaves data out. */
    function PreviewCut(): (n: nat)
      ensures data == None ==> n == 0
      ensures Valid() && data.Some? ==> n == if |Preview()| < dataSize then 1 else 0
    {
      if data.Some? && dataSize > 256 then 1 else 0
    }

    function LateCuts(): nat { CutCount(Units(valueName), 128) + PreviewCut() }
  }

  function RegistryHeader(env: Env, path: seq<u16>, drop: u32, trunc: u32): Header {
    HeaderFor(RegistryModify, env.timestamp, drop, Add32(trunc, CutCount(path, 512)))
  }

  function SetValueEvent(info: SetValueInfo, env: Env, drop: u32, trunc: u32): Event
    requires info.Valid()
  {
    RegistryModified(RegistryHeader(env, info.key.Path(), drop, trunc), env.pid, 1, info.valueType, info.dataSize,
                     Cut(info.key.Path(), 512), Cut(Units(info.valueName), 128), info.Preview())
  }

  lemma NoPreview(info: SetValueInfo)
    requires info.Valid()
    ensures info.data == None || info.dataSize == 0 ==> info.Preview() == [] && info.PreviewCut() == 0
  {
  }

  ghost function SetValueFields(info: SetValueInfo, pid: u32, h: Header): seq<seq<byte>>
    requires info.Valid()
  {
    var key, name, p := Cut(info.key.Path(), 512), Cut(Units(info.valueName), 128), info.Preview();
    Blank(RegistryModify, h)[1 := LE(pid, 4)][2 := LE(1, 2)][3 := LE(info.valueType, 4)][4 := LE(info.dataSize, 4)]
    [5 := StringField(key, 512)][6 := LE(|key|, 2)][7 := StringField(name, 128)][8 := LE(|name|, 2)]
    [9 := ByteField(p, 256)][10 := LE(|p|, 2)]
  }

  /** The data preview: bytes and length, or nothing. */
  function PreviewWrites(info: SetValueInfo): seq<FieldWrite>
    requires info.Valid()
  {
    if info.data.Some? && info.dataSize > 0 then
      [FieldWrite(9, info.Preview())] + [FieldWrite(10, LE(|info.Preview()|, 2))]
    else []
  }

  /** `fill_registry_common`. */
  function CommonWrites(pid: u32, op: u16): seq<FieldWrite> { [FieldWrite(1, LE(pid, 4))] + [FieldWrite(2, LE(op, 2))] }

  /** `write_resolved_key_path`. */
  function PathWrites(key: seq<u16>): seq<FieldWrite>
    requires |key| < 0x1_0000
  {
    [FieldWrite(5, UnitBytes(key))] + [FieldWrite(6, LE(|key|, 2))]
  }

  /** Value type and data size. */
  function ValueWrites(info: SetValueInfo): seq<FieldWrite> {
    [FieldWrite(3, LE(info.valueType, 4))] + [FieldWrite(4, LE(info.dataSize, 4))]
  }

  /** `emit_set_value`, in the order of the code. */
  function SetValueWrites(info: SetValueInfo, pid: u32): seq<FieldWrite>
    requires info.Valid()
  {
    CommonWrites(pid, 1) + ValueWrites(info) + PathWrites(Cut(info.key.Path(), 512))
    + NameWrites(info.valueName, 7, 128) + PreviewWrites(info)
  }

  lemma PutPreview(fs: seq<seq<byte>>, ws: seq<FieldWrite>, info: SetValueInfo)
    requires info.Valid() && |fs| == 11 && PutAll(fs, ws)[9] == Zeros(256) && PutAll(fs, ws)[10] == Zeros(2)
    ensures var p := info.Preview();
            PutAll(fs, ws + PreviewWrites(info)) == PutAll(fs, ws)[9 := ByteField(p, 256)][10 := LE(|p|, 2)]
  {
    hide PutAll, LE, ByteField, Zeros, SetValueInfo.Preview;
    var p, gs := info.Preview(), PutAll(fs, ws);
    if info.data.Some? && info.dataSize > 0 {
      BytesWritten(p, 256);
      PutNext(fs, ws, 9, p, ByteField(p, 256));
      PutWhole(fs, ws + [FieldWrite(9, p)], 10, LE(|p|, 2));
      assert ws + PreviewWrites(info) == ws + [FieldWrite(9, p)] + [FieldWrite(10, LE(|p|, 2))];
    } else {
      ZeroNumber(2);
      EmptyText(256);
      NoPreview(info);
      assert ws + [] == ws && gs[9 := gs[9]][10 := gs[10]] == gs;
    }
  }

  lemma PutTwo(fs: seq<seq<byte>>, ws: seq<FieldWrite>, i: nat, d: seq<byte>, j: nat, e: seq<byte>)
    requires i < |fs| && j < |fs| && i != j && |d| == |PutAll(fs, ws)[i]| && |e| == |PutAll(fs, ws)[j]|
    ensures PutAll(fs, ws + ([FieldWrite(i, d)] + [FieldWrite(j, e)])) == PutAll(fs, ws)[i := d][j := e]
  {
    hide PutAll;
    PutWhole(fs, ws, i, d);
    PutWhole(fs, ws + [FieldWrite(i, d)], j, e);
    assert ws + ([FieldWrite(i, d)] + [FieldWrite(j, e)]) == ws + [FieldWrite(i, d)] + [FieldWrite(j, e)];
  }

  lemma PutCommon(pid: u32, op: u16, h: Header)
    ensures PutAll(Blank(RegistryModify, h), CommonWrites(pid, op)) == Blank(RegistryModify, h)[1 := LE(pid, 4)][2 := LE(op, 2)]
  {
    hide LE, EncodeHeader;
    var fs := Blank(RegistryModify, h);
    assert PutAll(fs, []) == fs && [] + CommonWrites(pid, op) == CommonWrites(pid, op);
    PutTwo(fs, [], 1, LE(pid, 4), 2, LE(op, 2));
  }

  lemma PutPath(fs: seq<seq<byte>>, ws: seq<FieldWrite>, key: seq<u16>)
    requires |key| <= 511 && |fs| == 11 && PutAll(fs, ws)[5] == Zeros(1024) && |PutAll(fs, ws)[6]| == 2
    ensures PutAll(fs, ws + PathWrites(key)) == PutAll(fs, ws)[5 := StringField(key, 512)][6 := LE(|key|, 2)]
  {
    hide PutAll, LE, StringField;
    var w1 := ws + [FieldWrite(5, UnitBytes(key))];
    StringWritten(key, 512);
    PutNext(fs, ws, 5, UnitBytes(key), StringField(key, 512));
    PutWhole(fs, w1, 6, LE(|key|, 2));
    assert ws + PathWrites(key) == w1 + [FieldWrite(6, LE(|key|, 2))];
  }

  lemma PutSetValue(info: SetValueInfo, pid: u32, h: Header)
    requires info.Valid()
    ensures PutAll(Blank(RegistryModify, h), SetValueWrites(info, pid)) == SetValueFields(info, pid, h)
  {
    hide PutAll, Cut, Units, KeyObject.Path, StringField, ByteField, LE, EncodeHeader, NameWrites, PreviewWrites, PathWrites,
         CommonWrites;
    var fs, key := Blank(RegistryModify, h), Cut(info.key.Path(), 512);
    var w1 := CommonWrites(pid, 1);
    var w2 := w1 + ValueWrites(info);
    var w3 := w2 + PathWrites(key);
    PutCommon(pid, 1, h);
    PutTwo(fs, w1, 3, LE(info.valueType, 4), 4, LE(info.dataSize, 4));
    PutPath(fs, w2, key);
    PutText(fs, w3, info.valueName, 7, 128);
    PutPreview(fs, w3 + NameWrites(info.valueName, 7, 128), info);
  }

  lemma SetValueWritesFit(info: SetValueInfo, pid: u32)
    requires info.Valid()
    ensures AllFit(RegistryModify, SetValueWrites(info, pid))
  {
    var key := Cut(info.key.Path(), 512);
    HeadWritesFit(info, pid, key);
    NameFit(info.valueName, 7, 128);
    PreviewFit(info);
    hide AllFit, CommonWrites, ValueWrites, PathWrites, NameWrites, PreviewWrites, Cut, KeyObject.Path;
    var head := CommonWrites(pid, 1) + ValueWrites(info) + PathWrites(key);
    FitConcat(RegistryModify, head, NameWrites(info.valueName, 7, 128));
    FitConcat(RegistryModify, head + NameWrites(info.valueName, 7, 128), PreviewWrites(info));
  }

  lemma HeadWritesFit(info: SetValueInfo, pid: u32, key: seq<u16>)
    requires |key| <= 511
    ensures AllFit(RegistryModify, CommonWrites(pid, 1) + ValueWrites(info) + PathWrites(key))
  {
    hide LE, UnitBytes;
  }

  lemma PreviewFit(info: SetValueInfo)
    requires info.Valid()
    ensures AllFit(RegistryModify, PreviewWrites(info))
  {
    hide LE, SetValueInfo.Preview;
  }

  lemma SetValueSpelled(info: SetValueInfo, env: Env, drop: u32, trunc: u32)
    requires info.Valid()
    ensures Spells(RegistryModify, SetValueWrites(info, env.pid), SetValueEvent(info, env, drop, trunc))
  {
    SetValueWritesFit(info, env.pid);
    var e := SetValueEvent(info, env, drop, trunc);
    forall h | HeaderFits(h, RegistryModify)
      ensures e.WithHeader(h).Valid()
      ensures PutAll(Blank(RegistryModify, h), SetValueWrites(info, env.pid)) == Fields(e.WithHeader(h))
    {
      SetValueHeld(info, env.pid, h);
      PutSetValue(info, env.pid, h);
      hide *;
      assert e.WithHeader(h) == SetValueWith(info, env.pid, h);
    }
    hide Blank, PutAll, SetValueWrites, Fields, HeaderFits, Event.Valid, AllFit;
  }

  /** The event of a value write, with a given header. */
  function SetValueWith(info: SetValueInfo, pid: u32, h: Header): Event
    requires info.Valid()
  {
    RegistryModified(h, pid, 1, info.valueType, info.dataSize, Cut(info.key.Path(), 512), Cut(Units(info.valueName), 128),
                     info.Preview())
  }

  lemma SetValueHeld(info: SetValueInfo, pid: u32, h: Header)
    requires info.Valid() && HeaderFits(h, RegistryModify)
    ensures SetValueWith(info, pid, h).Valid() && SetValueFields(info, pid, h) == Fields(SetValueWith(info, pid, h))
  {
    hide LE, EncodeHeader, StringField, ByteField, Cut, Units, Zeros, SetValueInfo.Preview, KeyObject.Path;
  }

  /** The bounded copies of `emit_set_value` after the stamp. */
  function LateCopies(info: SetValueInfo): seq<Copy> {
    TextCopies(info.valueName, 128) + if info.data.Some? && info.dataSize > 0 then [Copy(info.dataSize, 256)] else []
  }

  lemma LateCopiesCut(info: SetValueInfo)
    ensures Truncated(LateCopies(info)) == info.LateCuts()
  {
    var cs: seq<Copy> := if info.data.Some? && info.dataSize > 0 then [Copy(info.dataSize, 256)] else [];
    TextCut(info.valueName, 128);
    TruncatedConcat(TextCopies(info.valueName, 128), cs);
    assert cs != [] ==> cs[..0] == [];
  }

  // ---------------------------------------------------------------- registry.rs: the other operations

  /** Events without data: `op`, key path, and a value name that may be empty. */
  function PlainEvent(h: Header, pid: u32, op: u16, key: seq<u16>, name: seq<u16>): Event {
    RegistryModified(h, pid, op, 0, 0, key, name, [])
  }

  ghost function PlainFields(h: Header, pid: u32, op: u16, key: seq<u16>, name: seq<u16>): seq<seq<byte>>
    requires |key| <= 511 && |name| <= 127
  {
    Blank(RegistryModify, h)[1 := LE(pid, 4)][2 := LE(op, 2)][5 := StringField(key, 512)][6 := LE(|key|, 2)]
    [7 := StringField(name, 128)][8 := LE(|name|, 2)]
  }

  lemma PlainFieldsAre(h: Header, pid: u32, op: u16, key: seq<u16>, name: seq<u16>)
    requires |key| <= 511 && |name| <= 127 && h.typeCode == TypeCode(RegistryModify) && h.size == EventSize(RegistryModify)
    ensures var e := PlainEvent(h, pid, op, key, name); e.Valid() && PlainFields(h, pid, op, key, name) == Fields(e)
  {
    ZeroNumber(2);
    ZeroNumber(4);
    EmptyText(256);
    hide LE, EncodeHeader, StringField, ByteField, Zeros;
  }

  lemma NoNameFields(h: Header, pid: u32, op: u16, key: seq<u16>)
    requires |key| <= 511
    ensures PlainFields(h, pid, op, key, [])
            == Blank(RegistryModify, h)[1 := LE(pid, 4)][2 := LE(op, 2)][5 := StringField(key, 512)][6 := LE(|key|, 2)]
  {
    ZeroNumber(2);
    EmptyText(128);
    hide LE, EncodeHeader, StringField, Zeros;
  }

  /** `emit_delete_value`. */
  function DeleteValueWrites(pid: u32, path: seq<u16>, name: PUnicodeString): seq<FieldWrite> {
    CommonWrites(pid, 2) + PathWrites(Cut(path, 512)) + NameWrites(name, 7, 128)
  }

  /** `emit_delete_key` and `emit_rename_key`. */
  function KeyOnlyWrites(pid: u32, op: u16, path: seq<u16>): seq<FieldWrite> {
    CommonWrites(pid, op) + PathWrites(Cut(path, 512))
  }

  /** `emit_create_key`. */
  function CreateKeyWrites(pid: u32, name: PUnicodeString): seq<FieldWrite> {
    CommonWrites(pid, 5) + NameWrites(name, 5, 512)
  }

  lemma PutDeleteValue(pid: u32, path: seq<u16>, name: PUnicodeString, h: Header)
    ensures PutAll(Blank(RegistryModify, h), DeleteValueWrites(pid, path, name))
            == PlainFields(h, pid, 2, Cut(path, 512), Cut(Units(name), 128))
  {
    hide PutAll, Cut, Units, StringField, LE, EncodeHeader, NameWrites, PathWrites, CommonWrites;
    var fs, w1 := Blank(RegistryModify, h), CommonWrites(pid, 2);
    PutCommon(pid, 2, h);
    PutPath(fs, w1, Cut(path, 512));
    PutText(fs, w1 + PathWrites(Cut(path, 512)), name, 7, 128);
  }

  lemma PutKeyOnly(pid: u32, op: u16, path: seq<u16>, h: Header)
    ensures PutAll(Blank(RegistryModify, h), KeyOnlyWrites(pid, op, path)) == PlainFields(h, pid, op, Cut(path, 512), [])
  {
    NoNameFields(h, pid, op, Cut(path, 512));
    hide PutAll, Cut, StringField, LE, EncodeHeader, PathWrites, CommonWrites, PlainFields;
    PutCommon(pid, op, h);
    PutPath(Blank(RegistryModify, h), CommonWrites(pid, op), Cut(path, 512));
  }

  lemma PutCreateKey(pid: u32, name: PUnicodeString, h: Header)
    ensures PutAll(Blank(RegistryModify, h), CreateKeyWrites(pid, name)) == PlainFields(h, pid, 5, Cut(Units(name), 512), [])
  {
    NoNameFields(h, pid, 5, Cut(Units(name), 512));
    hide PutAll, Cut, Units, StringField, LE, EncodeHeader, NameWrites, CommonWrites, PlainFields;
    PutCommon(pid, 5, h);
    PutText(Blank(RegistryModify, h), CommonWrites(pid, 5), name, 5, 512);
  }

  /** Writes that leave the fields of a plain event spell it. */
  lemma PlainSpelled(ws: seq<FieldWrite>, h0: Header, pid: u32, op: u16, key: seq<u16>, name: seq<u16>)
    requires AllFit(RegistryModify, ws) && |key| <= 511 && |name| <= 127
    requires forall h :: PutAll(Blank(RegistryModify, h), ws) == PlainFields(h, pid, op, key, name)
    ensures Spells(RegistryModify, ws, PlainEvent(h0, pid, op, key, name))
  {
    var e := PlainEvent(h0, pid, op, key, name);
    forall h | HeaderFits(h, RegistryModify)
      ensures e.WithHeader(h).Valid() && PutAll(Blank(RegistryModify, h), ws) == Fields(e.WithHeader(h))
    {
      PlainFieldsAre(h, pid, op, key, name);
      assert e.WithHeader(h) == PlainEvent(h, pid, op, key, name) by { hide *; }
    }
    hide Blank, PutAll, PlainFields, Fields, HeaderFits, Event.Valid, AllFit;
  }

  lemma CommonFit(pid: u32, op: u16, key: seq<u16>)
    requires |key| <= 511
    ensures AllFit(RegistryModify, CommonWrites(pid, op) + PathWrites(key))
  {
    hide LE, UnitBytes;
  }

  lemma NameFit(name: PUnicodeString, i: nat, max: nat)
    requires (i == 5 && max == 512) || (i == 7 && max == 128)
    ensures AllFit(RegistryModify, NameWrites(name, i, max))
  {
    hide LE, UnitBytes, Cut, Units;
  }

  lemma FitConcat(k: EventKind, a: seq<FieldWrite>, b: seq<FieldWrite>)
    requires AllFit(k, a) && AllFit(k, b)
    ensures AllFit(k, a + b)
  {
    hide Widths;
  }

  lemma DeleteValueSpelled(pid: u32, path: seq<u16>, name: PUnicodeString, h0: Header)
    ensures Spells(RegistryModify, DeleteValueWrites(pid, path, name), PlainEvent(h0, pid, 2, Cut(path, 512), Cut(Units(name), 128)))
  {
    forall h ensures PutAll(Blank(RegistryModify, h), DeleteValueWrites(pid, path, name))
                     == PlainFields(h, pid, 2, Cut(path, 512), Cut(Units(name), 128))
    {
      PutDeleteValue(pid, path, name, h);
    }
    CommonFit(pid, 2, Cut(path, 512));
    NameFit(name, 7, 128);
    FitConcat(RegistryModify, CommonWrites(pid, 2) + PathWrites(Cut(path, 512)), NameWrites(name, 7, 128));
    hide PutAll, Blank, PlainFields, AllFit, Spells, Cut, Units, CommonWrites, PathWrites, NameWrites;
    PlainSpelled(DeleteValueWrites(pid, path, name), h0, pid, 2, Cut(path, 512), Cut(Units(name), 128));
  }

  lemma KeyOnlySpelled(pid: u32, op: u16, path: seq<u16>, h0: Header)
    ensures Spells(RegistryModify, KeyOnlyWrites(pid, op, path), PlainEvent(h0, pid, op, Cut(path, 512), []))
  {
    forall h ensures PutAll(Blank(RegistryModify, h), KeyOnlyWrites(pid, op, path)) == PlainFields(h, pid, op, Cut(path, 512), []) {
      PutKeyOnly(pid, op, path, h);
    }
    CommonFit(pid, op, Cut(path, 512));
    hide PutAll, Blank, PlainFields, AllFit, Spells, Cut, CommonWrites, PathWrites;
    PlainSpelled(KeyOnlyWrites(pid, op, path), h0, pid, op, Cut(path, 512), []);
  }

  lemma CreateKeySpelled(pid: u32, name: PUnicodeString, h0: Header)
    ensures Spells(RegistryModify, CreateKeyWrites(pid, name), PlainEvent(h0, pid, 5, Cut(Units(name), 512), []))
  {
    forall h ensures PutAll(Blank(RegistryModify, h), CreateKeyWrites(pid, name)) == PlainFields(h, pid, 5, Cut(Units(name), 512), []) {
      PutCreateKey(pid, name, h);
    }
    assert AllFit(RegistryModify, CommonWrites(pid, 5)) by { hide LE; }
    NameFit(name, 5, 512);
    FitConcat(RegistryModify, CommonWrites(pid, 5), NameWrites(name, 5, 512));
    hide PutAll, Blank, PlainFields, AllFit, Spells, Cut, Units, CommonWrites, NameWrites;
    PlainSpelled(CreateKeyWrites(pid, name), h0, pid, 5, Cut(Units(name), 512), []);
  }

  // ---------------------------------------------------------------- fields cut

  /** One call of a callback, by what it reports. The thread and handle callbacks copy no string. */
  datatype Emission =
    | Exits
    | Creates(info: CreateInfo)
    | Loads(name: PUnicodeString)
    | SetsValue(value: SetValueInfo)
    | DeletesValue(key: KeyObject, name: PUnicodeString)
    | KeyOnly(key: KeyObject)
    | CreatesKey(name: PUnicodeString)
    | OnThread
    | OnHandle
    | Ignored
  {
    /** The bounded copies made before the allocation. */
    function Early(): seq<Copy> {
      match this
      case SetsValue(value) => KeyCopies(value.key)
      case DeletesValue(key, _) => KeyCopies(key)
      case KeyOnly(key) => KeyCopies(key)
      case _ => []
    }

    /** The bounded copies made into the event. */
    function Late(): seq<Copy> {
      match this
      case Creates(info) => CreateCopies(info)
      case Loads(name) => TextCopies(name, 512)
      case SetsValue(value) => LateCopies(value)
      case DeletesValue(_, name) => TextCopies(name, 128)
      case CreatesKey(name) => TextCopies(name, 512)
      case _ => []
    }

    /** All its copies, if it gets as far as an event or not. */
    function Copies(built: bool): seq<Copy> { if built then Early() + Late() else Early() }

    /** The fields whose source did not fit. */
    function Cuts(built: bool): nat {
      match this
      case Creates(info) => if built then CreateCuts(info) else 0
      case Loads(name) => if built then CutCount(Units(name), 512) else 0
      case SetsValue(value) => CutCount(value.key.Path(), 512) + if built then value.LateCuts() else 0
      case DeletesValue(key, name) => CutCount(key.Path(), 512) + if built then CutCount(Units(name), 128) else 0
      case KeyOnly(key) => CutCount(key.Path(), 512)
      case CreatesKey(name) => if built then CutCount(Units(name), 512) else 0
      case _ => 0
    }
  }

  lemma CopiesCut(e: Emission, built: bool)
    ensures Truncated(e.Copies(built)) == e.Cuts(built)
  {
    hide TextCopies, KeyCopies, LateCopies, CreateCopies, CutCount, Units, KeyObject.Path, Truncated;
    NothingCut();
    TruncatedConcat(e.Early(), e.Late());
    match e
    case Creates(info) => CreateCopiesCut(info);
    case Loads(name) => TextCut(name, 512);
    case SetsValue(value) => KeyCopiesCut(value.key); LateCopiesCut(value);
    case DeletesValue(key, name) => KeyCopiesCut(key); TextCut(name, 128);
    case KeyOnly(key) => KeyCopiesCut(key);
    case CreatesKey(name) => TextCut(name, 512);
    case _ =>
  }

  /** 1 if the string does not fit its field, else 0. */
  function TooLong(us: seq<u16>, max: nat): nat
    requires max > 0
  {
    if Cut(us, max) == us then 0 else 1
  }

  /** The fields an emitter cuts, one by one. */
  lemma CutsByField(e: Emission, built: bool)
    ensures e.Creates? && built ==>
              e.Cuts(built) == TooLong(Units(e.info.imageName), 512) + TooLong(Units(e.info.commandLine), 4096)
    ensures e.Loads? && built ==> e.Cuts(built) == TooLong(Units(e.name), 512)
    ensures e.CreatesKey? && built ==> e.Cuts(built) == TooLong(Units(e.name), 512)
    ensures e.Creates? || e.Loads? || e.CreatesKey? ==> e.Cuts(false) == 0
    ensures e.SetsValue? ==> e.Cuts(false) == TooLong(e.value.key.Path(), 512)
    ensures e.SetsValue? && e.value.Valid() ==>
              e.Cuts(true) == TooLong(e.value.key.Path(), 512) + TooLong(Units(e.value.valueName), 128)
                              + if e.value.data.Some? && |e.value.Preview()| < e.value.dataSize then 1 else 0
    ensures e.DeletesValue? ==> e.Cuts(false) == TooLong(e.key.Path(), 512)
    ensures e.DeletesValue? ==> e.Cuts(true) == TooLong(e.key.Path(), 512) + TooLong(Units(e.name), 128)
    ensures e.KeyOnly? ==> e.Cuts(built) == TooLong(e.key.Path(), 512)
    ensures e.Exits? || e.OnThread? || e.OnHandle? || e.Ignored? ==> e.Cuts(built) == 0
  {
  }

  lemma NothingCut()
    ensures Truncated([]) == 0
  {
  }

  lemma {:induction false} PrefixCut(cs: seq<Copy>, ds: seq<Copy>)
    requires cs <= ds
    ensures Truncated(cs) <= Truncated(ds)
  {
    TruncatedConcat(cs, ds[|cs|..]);
    assert ds == cs + ds[|cs|..];
  }
}
