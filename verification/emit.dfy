/** The emitters of the process, image and registry callbacks. Each returns the buffer it hands to
    `submit_event`, or null when there is nothing to hand over, and the list of its writes. */
module Emitters {
  import opened Wire
  import opened Layout
  import opened EventRecords
  import opened KernelStrings
  import opened Gate
  import opened EventBuild
  import opened Spelling

  /** The counters after an emitter: `early` cuts come before the header takes its stamps, `late` ones after. */
  predicate Counted(drop': u32, trunc': u32, drop: u32, trunc: u32, passed: bool, oom: bool, early: nat, late: nat) {
    if !passed then drop' == drop && trunc' == Add32(trunc, early)
    else if oom then drop' == Add32(drop, 1) && trunc' == Add32(trunc, early)
    else drop' == 0 && trunc' == Add32(0, late)
  }

  lemma AddTwice(x: u32, m: nat, n: nat)
    ensures Add32(Add32(x, m), n) == Add32(x, m + n) && Add32(x, 0) == x
  {
  }

  /** The buffer was made by the writes `log` under header `h` and is the encoding of `e`. */
  ghost predicate Made(bytes: seq<byte>, k: EventKind, h: Header, log: seq<FieldWrite>, e: Event) {
    Wrote(bytes, k, h, log) && e.Valid() && e.header == h && bytes == Encode(e)
  }

  lemma MadeAs(bytes: seq<byte>, k: EventKind, h: Header, log: seq<FieldWrite>, e: Event)
    requires Wrote(bytes, k, h, log) && Spells(k, log, e) && HeaderFits(h, k) && e.header == h
    ensures Made(bytes, k, h, log, e)
  {
    assert e.WithHeader(h) == e;
    hide Wrote, Spells, Encode, Event.Valid;
    WroteSpelled(bytes, k, h, log, e);
  }

  lemma FreshWrote(bytes: seq<byte>, k: EventKind, h: Header)
    requires Holds(bytes, k, Blank(k, h))
    ensures Wrote(bytes, k, h, [])
  {
    hide Blank, Holds;
  }

  // ---------------------------------------------------------------- process.rs

  /** `emit_process_exit`; `status` is the exit status as a bit pattern, absent for a null process. */
  method EmitProcessExit(c: Counters, pid: u32, status: Option<u32>, env: Env)
    returns (evt: array?<byte>, ghost log: seq<FieldWrite>)
    modifies c
    ensures evt == null <==> env.oom
    ensures Counted(c.drop, c.trunc, old(c.drop), old(c.trunc), true, env.oom, 0, 0)
    ensures evt != null ==>
              var e := ExitEvent(pid, status, env, old(c.drop), old(c.trunc));
              && log == ExitWrites(pid, if status.Some? then status.value else 0)
              && fresh(evt) && Made(evt[..], ProcessExit, e.header, log, e)
  {
    hide LE, Holds, Wrote, Made, Blank, Spells, ExitWrites;
    log := [];
    evt := AllocEventFor(c, ProcessExit, env);
    if evt == null { return; }
    ghost var e := ExitEvent(pid, status, env, old(c.drop), old(c.trunc));
    FreshWrote(evt[..], ProcessExit, e.header);
    log := WriteField(evt, ProcessExit, 1, LE(pid, 4), e.header, log);
    var code := if status.Some? then status.value else 0;
    log := WriteField(evt, ProcessExit, 2, LE(code, 4), e.header, log);
    ExitListed(pid, code, log);
    ExitSpelled(pid, status, env, old(c.drop), old(c.trunc));
    MadeAs(evt[..], ProcessExit, e.header, log, e);
  }

  lemma ExitListed(pid: u32, code: u32, log: seq<FieldWrite>)
    requires log == [] + [FieldWrite(1, LE(pid, 4))] + [FieldWrite(2, LE(code, 4))]
    ensures log == ExitWrites(pid, code)
  {
    hide LE;
  }

  method WriteIds(evt: array<byte>, pid: u32, info: CreateInfo, ghost h: Header) returns (ghost log: seq<FieldWrite>)
    requires Holds(evt[..], ProcessCreate, Blank(ProcessCreate, h))
    modifies evt
    ensures log == IdWrites(pid, info) && Wrote(evt[..], ProcessCreate, h, log)
  {
    FreshWrote(evt[..], ProcessCreate, h);
    CreateWidths();
    hide LE, Id, Holds, Wrote, Blank, Widths, IdWrites;
    log := WriteField(evt, ProcessCreate, 1, LE(pid, 4), h, []);
    log := WriteField(evt, ProcessCreate, 2, LE(Id(info.parent), 4), h, log);
    log := WriteField(evt, ProcessCreate, 3, LE(Id(info.creator), 4), h, log);
    IdsListed(pid, info, log);
  }

  lemma IdsListed(pid: u32, info: CreateInfo, log: seq<FieldWrite>)
    requires log == [] + [FieldWrite(1, LE(pid, 4))] + [FieldWrite(2, LE(Id(info.parent), 4))] + [FieldWrite(3, LE(Id(info.creator), 4))]
    ensures log == IdWrites(pid, info)
  {
    hide LE, Id;
  }

  /** `emit_process_create`. */
  method EmitProcessCreate(c: Counters, pid: u32, info: CreateInfo, env: Env)
    returns (evt: array?<byte>, ghost log: seq<FieldWrite>)
    modifies c
    ensures evt == null <==> env.oom
    ensures Counted(c.drop, c.trunc, old(c.drop), old(c.trunc), true, env.oom, 0, CreateCuts(info))
    ensures evt != null ==>
              var e := CreateEvent(pid, info, env, old(c.drop), old(c.trunc));
              log == CreateWrites(pid, info) && fresh(evt) && Made(evt[..], ProcessCreate, e.header, log, e)
  {
    CreateWidths();
    hide LE, Holds, Wrote, Made, Blank, Spells, IdWrites, TextWrites, Cut, CutCount, Units, Id, Add32, Widths;
    AddTwice(c.trunc, 0, 0);
    AddTwice(0, CutCount(Units(info.imageName), 512), CutCount(Units(info.commandLine), 4096));
    log := [];
    evt := AllocEventFor(c, ProcessCreate, env);
    if evt == null { return; }
    ghost var e := CreateEvent(pid, info, env, old(c.drop), old(c.trunc));
    log := WriteIds(evt, pid, info, e.header);
    log := CopyText(c, info.imageName, evt, ProcessCreate, 4, IMAGE_PATH_MAX, e.header, log);
    log := CopyText(c, info.commandLine, evt, ProcessCreate, 6, COMMAND_LINE_MAX, e.header, log);
    log := WriteField(evt, ProcessCreate, 12, LE(UNRESOLVED, 4), e.header, log);
    CreateSpelled(pid, info, env, old(c.drop), old(c.trunc));
    MadeAs(evt[..], ProcessCreate, e.header, log, e);
  }

  // ---------------------------------------------------------------- image.rs

  /** `emit_image_load`; name and image information may be missing. */
  method EmitImageLoad(c: Counters, pid: u32, name: PUnicodeString, info: Option<ImageInfo>, env: Env)
    returns (evt: array?<byte>, ghost log: seq<FieldWrite>)
    modifies c
    ensures evt == null <==> env.oom
    ensures Counted(c.drop, c.trunc, old(c.drop), old(c.trunc), true, env.oom, 0, CutCount(Units(name), 512))
    ensures evt != null ==>
              var e := LoadEvent(pid, name, info, env, old(c.drop), old(c.trunc));
              log == LoadWrites(pid, name, info) && fresh(evt) && Made(evt[..], ImageLoad, e.header, log, e)
  {
    LoadWidths();
    hide LE, Holds, Wrote, Made, Blank, Spells, LoadWrites, ImageWrites, TextWrites, Cut, CutCount, Units, Add32, Widths;
    AddTwice(c.trunc, 0, 0);
    log := [];
    evt := AllocEventFor(c, ImageLoad, env);
    if evt == null { return; }
    ghost var e := LoadEvent(pid, name, info, env, old(c.drop), old(c.trunc));
    FreshWrote(evt[..], ImageLoad, e.header);
    log := WriteField(evt, ImageLoad, 1, LE(pid, 4), e.header, log);
    if info.Some? {
      log := WriteField(evt, ImageLoad, 2, LE(info.value.start, 8), e.header, log);
      log := WriteField(evt, ImageLoad, 3, LE(info.value.size, 8), e.header, log);
    }
    ImageListed(pid, info, log);
    log := CopyText(c, name, evt, ImageLoad, 4, IMAGE_PATH_MAX, e.header, log);
    LoadSpelled(pid, name, info, env, old(c.drop), old(c.trunc));
    LoadListed(pid, name, info, log);
    MadeAs(evt[..], ImageLoad, e.header, log, e);
  }

  lemma ImageListed(pid: u32, info: Option<ImageInfo>, log: seq<FieldWrite>)
    requires var w := [] + [FieldWrite(1, LE(pid, 4))];
             log == if info.Some? then w + [FieldWrite(2, LE(info.value.start, 8))] + [FieldWrite(3, LE(info.value.size, 8))] else w
    ensures log == [FieldWrite(1, LE(pid, 4))] + ImageWrites(info)
  {
    hide LE;
  }

  lemma LoadListed(pid: u32, name: PUnicodeString, info: Option<ImageInfo>, log: seq<FieldWrite>)
    requires log == [FieldWrite(1, LE(pid, 4))] + ImageWrites(info) + TextWrites(name, 4, 512)
    ensures log == LoadWrites(pid, name, info)
  {
  }

  // ---------------------------------------------------------------- registry.rs: gate and common fields

  /** `write_key_path_from_object` into zeroed memory; the resolved name is released exactly once. */
  method WriteKeyPathFromObject(c: Counters, key: KeyObject, dst: array<byte>, max: nat) returns (n: nat, releases: nat)
    requires max > 0 && dst.Length == 2 * max && dst[..] == Zeros(2 * max)
    modifies c`trunc, dst
    ensures n == |Cut(key.Path(), max)| && dst[..] == StringField(Cut(key.Path(), max), max)
    ensures c.trunc == Add32(old(c.trunc), CutCount(key.Path(), max))
    ensures releases == if key.Named? && key.name.Some? then 1 else 0
  {
    EmptyText(max);
    hide StringField, Splice, UnitBytes;
    if key.Null? { return 0, 0; }
    if key.Unresolved? || key.name == None { return 0, 0; }
    n := CopyUnicodeInto(c, key.name, dst, 0, max);
    SplicedText(Cut(key.Path(), max), max);
    releases := 1;
  }

  lemma SplicedText(us: seq<u16>, max: nat)
    requires |us| <= max
    ensures Splice(Zeros(2 * max), 0, UnitBytes(us)) == StringField(us, max)
  {
    StringWritten(us, max);
  }

  /** `resolve_and_gate_object`: the decision is made on the cut copy, yet it is the one for the full path.
      A cut is counted even when the path is then rejected. */
  method ResolveAndGate(c: Counters, key: KeyObject) returns (buf: array<byte>, len: nat, ok: bool)
    modifies c`trunc
    ensures ok <==> Interesting(key.Path())
    ensures var us := Cut(key.Path(), 512); fresh(buf) && len == |us| && buf[..] == StringField(us, 512)
    ensures c.trunc == Add32(old(c.trunc), CutCount(key.Path(), 512))
  {
    hide StringField, Interesting, Cut, CutCount, Add32;
    buf := new byte[1024];
    ZeroFill(buf);
    var n, _ := WriteKeyPathFromObject(c, key, buf, REGISTRY_KEY_PATH_MAX);
    len := n;
    ghost var us := Cut(key.Path(), 512);
    EmptyIsDull();
    CutGateAgrees(key.Path(), 512);
    TextRead(us, 512);
    if len == 0 {
      assert us == [];
      return buf, len, false;
    }
    ok := IsInterestingPath(UnitsFrom(buf[..], len));
  }

  lemma TextRead(us: seq<u16>, max: nat)
    requires |us| <= max
    ensures UnitsFrom(StringField(us, max), |us|) == us
    ensures StringField(us, max)[..2 * |us|] == UnitBytes(us)
  {
    UnitsRoundTrip(us, Zeros(2 * max - 2 * |us|));
  }

  /** `fill_registry_common`. */
  method FillRegistryCommon(evt: array<byte>, pid: u32, op: u16, ghost h: Header) returns (ghost log: seq<FieldWrite>)
    requires Holds(evt[..], RegistryModify, Blank(RegistryModify, h))
    modifies evt
    ensures log == CommonWrites(pid, op) && Wrote(evt[..], RegistryModify, h, log)
  {
    FreshWrote(evt[..], RegistryModify, h);
    RegistryWidths();
    hide LE, Holds, Wrote, Blank, Widths, CommonWrites;
    log := WriteField(evt, RegistryModify, 1, LE(pid, 4), h, []);
    log := WriteField(evt, RegistryModify, 2, LE(op, 2), h, log);
    CommonListed(pid, op, log);
  }

  lemma CommonListed(pid: u32, op: u16, log: seq<FieldWrite>)
    requires log == [] + [FieldWrite(1, LE(pid, 4))] + [FieldWrite(2, LE(op, 2))]
    ensures log == CommonWrites(pid, op)
  {
    hide LE;
  }

  lemma TwoMore(log: seq<FieldWrite>, a: FieldWrite, b: FieldWrite)
    ensures log + [a] + [b] == log + ([a] + [b]) && log + [] == log
  {
  }

  /** `write_resolved_key_path`. */
  method WriteResolvedKeyPath(evt: array<byte>, buf: array<byte>, len: nat, ghost us: seq<u16>, ghost h: Header, ghost log: seq<FieldWrite>)
    returns (ghost more: seq<FieldWrite>)
    requires evt != buf && Wrote(evt[..], RegistryModify, h, log)
    requires len == |us| <= 511 && buf[..] == StringField(us, 512)
    modifies evt
    ensures more == log + PathWrites(us) && Wrote(evt[..], RegistryModify, h, more)
  {
    TextRead(us, 512);
    TwoMore(log, FieldWrite(5, UnitBytes(us)), FieldWrite(6, LE(len, 2)));
    RegistryWidths();
    hide LE, Wrote, StringField, UnitBytes, Widths;
    more := WriteField(evt, RegistryModify, 5, buf[..2 * len], h, log);
    more := WriteField(evt, RegistryModify, 6, LE(len, 2), h, more);
  }

  // ---------------------------------------------------------------- registry.rs: SetValue

  /** The comment in the wire format says that the preview length is the smaller of the data size and the
      field; that holds if and only if the data pointer is not null or there is no data. */
  lemma PreviewLengthIff(info: SetValueInfo, env: Env, drop: u32, trunc: u32)
    requires info.Valid()
    ensures var e := SetValueEvent(info, env, drop, trunc);
            |e.preview| == (if e.dataSize < REGISTRY_DATA_PREVIEW_MAX then e.dataSize else REGISTRY_DATA_PREVIEW_MAX)
            <==> info.data.Some? || info.dataSize == 0
  {
  }

  /** The data and its length. */
  method WriteData(evt: array<byte>, front: seq<byte>, ghost h: Header, ghost log: seq<FieldWrite>)
    returns (ghost more: seq<FieldWrite>)
    requires |front| <= REGISTRY_DATA_PREVIEW_MAX && Wrote(evt[..], RegistryModify, h, log)
    modifies evt
    ensures more == log + ([FieldWrite(9, front)] + [FieldWrite(10, LE(|front|, 2))]) && Wrote(evt[..], RegistryModify, h, more)
  {
    TwoMore(log, FieldWrite(9, front), FieldWrite(10, LE(|front|, 2)));
    RegistryWidths();
    hide LE, Wrote, Widths;
    more := WriteField(evt, RegistryModify, 9, front, h, log);
    more := WriteField(evt, RegistryModify, 10, LE(|front|, 2), h, more);
  }

  /** The preview and its length; missing or empty data writes nothing. */
  method WritePreview(c: Counters, evt: array<byte>, info: SetValueInfo, ghost h: Header, ghost log: seq<FieldWrite>)
    returns (ghost more: seq<FieldWrite>)
    requires info.Valid() && Wrote(evt[..], RegistryModify, h, log)
    modifies c`trunc, evt
    ensures more == log + PreviewWrites(info) && Wrote(evt[..], RegistryModify, h, more)
    ensures c.trunc == Add32(old(c.trunc), info.PreviewCut())
  {
    AddTwice(c.trunc, 0, 0);
    hide LE, Wrote, Add32;
    more := log;
    if info.data.Some? && info.dataSize > 0 {
      var n: nat := if info.dataSize < 256 then info.dataSize else 256;
      if info.dataSize > n { c.CountTruncation(); }
      more := WriteData(evt, info.data.value[..n], h, log);
    } else {
      assert log + [] == log;
    }
  }

  /** The writes of `emit_set_value` after the allocation. */
  method FillSetValue(c: Counters, evt: array<byte>, info: SetValueInfo, pid: u32, buf: array<byte>, len: nat, ghost h: Header)
    returns (ghost log: seq<FieldWrite>)
    requires info.Valid() && evt != buf && Holds(evt[..], RegistryModify, Blank(RegistryModify, h))
    requires len == |Cut(info.key.Path(), 512)| && buf[..] == StringField(Cut(info.key.Path(), 512), 512)
    modifies c`trunc, evt
    ensures log == SetValueWrites(info, pid) && Wrote(evt[..], RegistryModify, h, log)
    ensures c.trunc == Add32(old(c.trunc), info.LateCuts())
  {
    RegistryWidths();
    hide LE, Holds, Wrote, Blank, CutCount, Units, StringField, Add32, SetValueInfo.PreviewCut, KeyObject.Path, Cut, CommonWrites,
         PathWrites, NameWrites, PreviewWrites, Widths;
    AddTwice(c.trunc, CutCount(Units(info.valueName), 128), info.PreviewCut());
    log := FillRegistryCommon(evt, pid, 1, h);
    log := WriteField(evt, RegistryModify, 3, LE(info.valueType, 4), h, log);
    log := WriteField(evt, RegistryModify, 4, LE(info.dataSize, 4), h, log);
    assert log == CommonWrites(pid, 1) + ValueWrites(info);
    log := WriteResolvedKeyPath(evt, buf, len, Cut(info.key.Path(), 512), h, log);
    log := CopyName(c, info.valueName, evt, RegistryModify, 7, REGISTRY_VALUE_NAME_MAX, h, log);
    log := WritePreview(c, evt, info, h, log);
  }

  /** `emit_set_value`. */
  method EmitSetValue(c: Counters, arg: Option<SetValueInfo>, env: Env) returns (evt: array?<byte>, ghost log: seq<FieldWrite>)
    requires arg.Some? ==> arg.value.Valid()
    modifies c
    ensures evt != null <==> arg.Some? && Interesting(arg.value.key.Path()) && !env.oom
    ensures arg == None ==> c.drop == old(c.drop) && c.trunc == old(c.trunc)
    ensures arg.Some? ==>
              var info := arg.value;
              Counted(c.drop, c.trunc, old(c.drop), old(c.trunc), Interesting(info.key.Path()), env.oom,
                      CutCount(info.key.Path(), 512), info.LateCuts())
    ensures evt != null ==>
              var e := SetValueEvent(arg.value, env, old(c.drop), old(c.trunc));
              log == SetValueWrites(arg.value, env.pid) && fresh(evt) && Made(evt[..], RegistryModify, e.header, log, e)
  {
    hide LE, Holds, Wrote, Made, Blank, Spells, SetValueWrites, Cut, CutCount, Units, StringField, Add32, Interesting,
         SetValueInfo.Preview, KeyObject.Path;
    log := [];
    if arg == None { return null, []; }
    var info := arg.value;
    var buf, len, ok := ResolveAndGate(c, info.key);
    if !ok { return null, []; }
    evt := AllocEventFor(c, RegistryModify, env);
    if evt == null { return; }
    ghost var e := SetValueEvent(info, env, old(c.drop), old(c.trunc));
    log := FillSetValue(c, evt, info, env.pid, buf, len, e.header);
    SetValueSpelled(info, env, old(c.drop), old(c.trunc));
    MadeAs(evt[..], RegistryModify, e.header, log, e);
  }

  // ---------------------------------------------------------------- registry.rs: the other operations

  /** `emit_delete_value`. */
  method EmitDeleteValue(c: Counters, arg: Option<(KeyObject, PUnicodeString)>, env: Env)
    returns (evt: array?<byte>, ghost log: seq<FieldWrite>)
    modifies c
    ensures evt != null <==> arg.Some? && Interesting(arg.value.0.Path()) && !env.oom
    ensures arg == None ==> c.drop == old(c.drop) && c.trunc == old(c.trunc)
    ensures arg.Some? ==>
              Counted(c.drop, c.trunc, old(c.drop), old(c.trunc), Interesting(arg.value.0.Path()), env.oom,
                      CutCount(arg.value.0.Path(), 512), CutCount(Units(arg.value.1), 128))
    ensures evt != null ==>
              var (key, name) := arg.value;
              var e := PlainEvent(RegistryHeader(env, key.Path(), old(c.drop), old(c.trunc)), env.pid, 2,
                                  Cut(key.Path(), 512), Cut(Units(name), 128));
              log == DeleteValueWrites(env.pid, key.Path(), name) && fresh(evt) && Made(evt[..], RegistryModify, e.header, log, e)
  {
    RegistryWidths();
    hide LE, Holds, Wrote, Made, Blank, Spells, Cut, CutCount, Units, StringField, Add32, Interesting, KeyObject.Path, CommonWrites,
         PathWrites, NameWrites, Widths;
    log := [];
    if arg == None { return null, []; }
    var (key, name) := arg.value;
    var buf, len, ok := ResolveAndGate(c, key);
    if !ok { return null, []; }
    evt := AllocEventFor(c, RegistryModify, env);
    if evt == null { return; }
    ghost var h := RegistryHeader(env, key.Path(), old(c.drop), old(c.trunc));
    log := FillRegistryCommon(evt, env.pid, 2, h);
    log := WriteResolvedKeyPath(evt, buf, len, Cut(key.Path(), 512), h, log);
    log := CopyName(c, name, evt, RegistryModify, 7, REGISTRY_VALUE_NAME_MAX, h, log);
    DeleteValueSpelled(env.pid, key.Path(), name, h);
    MadeAs(evt[..], RegistryModify, h, log, PlainEvent(h, env.pid, 2, Cut(key.Path(), 512), Cut(Units(name), 128)));
  }

  /** `emit_delete_key` (operation 3) and `emit_rename_key` (operation 4). */
  method EmitKeyOnly(c: Counters, op: u16, arg: Option<KeyObject>, env: Env) returns (evt: array?<byte>, ghost log: seq<FieldWrite>)
    modifies c
    ensures evt != null <==> arg.Some? && Interesting(arg.value.Path()) && !env.oom
    ensures arg == None ==> c.drop == old(c.drop) && c.trunc == old(c.trunc)
    ensures arg.Some? ==>
              Counted(c.drop, c.trunc, old(c.drop), old(c.trunc), Interesting(arg.value.Path()), env.oom,
                      CutCount(arg.value.Path(), 512), 0)
    ensures evt != null ==>
              var path := arg.value.Path();
              var e := PlainEvent(RegistryHeader(env, path, old(c.drop), old(c.trunc)), env.pid, op, Cut(path, 512), []);
              log == KeyOnlyWrites(env.pid, op, path) && fresh(evt) && Made(evt[..], RegistryModify, e.header, log, e)
  {
    hide LE, Holds, Wrote, Made, Blank, Spells, Cut, CutCount, StringField, Add32, Interesting, KeyObject.Path, CommonWrites,
         PathWrites;
    AddTwice(0, 0, 0);
    log := [];
    if arg == None { return null, []; }
    var buf, len, ok := ResolveAndGate(c, arg.value);
    if !ok { return null, []; }
    evt := AllocEventFor(c, RegistryModify, env);
    if evt == null { return; }
    ghost var path := arg.value.Path();
    ghost var h := RegistryHeader(env, path, old(c.drop), old(c.trunc));
    log := FillRegistryCommon(evt, env.pid, op, h);
    log := WriteResolvedKeyPath(evt, buf, len, Cut(path, 512), h, log);
    KeyOnlySpelled(env.pid, op, path, h);
    MadeAs(evt[..], RegistryModify, h, log, PlainEvent(h, env.pid, op, Cut(path, 512), []));
  }

  /** `emit_create_key`: gated on the full name, which is then cut into the event, after the stamp. */
  method EmitCreateKey(c: Counters, arg: Option<PUnicodeString>, env: Env) returns (evt: array?<byte>, ghost log: seq<FieldWrite>)
    modifies c
    ensures evt != null <==> arg.Some? && Interesting(Units(arg.value)) && !env.oom
    ensures arg == None ==> c.drop == old(c.drop) && c.trunc == old(c.trunc)
    ensures arg.Some? ==>
              Counted(c.drop, c.trunc, old(c.drop), old(c.trunc), Interesting(Units(arg.value)), env.oom,
                      0, CutCount(Units(arg.value), 512))
    ensures evt != null ==>
              var e := PlainEvent(HeaderFor(RegistryModify, env.timestamp, old(c.drop), old(c.trunc)), env.pid, 5,
                                  Cut(Units(arg.value), 512), []);
              log == CreateKeyWrites(env.pid, arg.value) && fresh(evt) && Made(evt[..], RegistryModify, e.header, log, e)
  {
    RegistryWidths();
    hide LE, Holds, Wrote, Made, Blank, Spells, Cut, CutCount, Units, Add32, Interesting, CommonWrites, NameWrites, Widths;
    AddTwice(c.trunc, 0, 0);
    log := [];
    if arg == None { return null, []; }
    var ok := IsInterestingUnicodeString(arg.value);
    if !ok { return null, []; }
    evt := AllocEventFor(c, RegistryModify, env);
    if evt == null { return; }
    ghost var h := HeaderFor(RegistryModify, env.timestamp, old(c.drop), old(c.trunc));
    log := FillRegistryCommon(evt, env.pid, 5, h);
    log := CopyName(c, arg.value, evt, RegistryModify, 5, REGISTRY_KEY_PATH_MAX, h, log);
    CreateKeySpelled(env.pid, arg.value, h);
    MadeAs(evt[..], RegistryModify, h, log, PlainEvent(h, env.pid, 5, Cut(Units(arg.value), 512), []));
  }

  // ---------------------------------------------------------------- what every emitter promises

  /** The fields of varying length; each is followed by that length. */
  predicate IsVarying(k: EventKind, i: nat) {
    match k
    case ProcessCreate => i == 4 || i == 6 || i == 8 || i == 10
    case ImageLoad => i == 4
    case RegistryModify => i == 5 || i == 7 || i == 9
    case _ => false
  }

  /** Text lengths count units of two bytes, the length of the data preview counts bytes. */
  function UnitSize(k: EventKind, i: nat): nat { if k.RegistryModify? && i == 9 then 1 else 2 }

  /** Beyond its recorded length every string, name and preview of every event is zero, so no pool memory
      leaks. */
  lemma TailIsZero(e: Event, i: nat, j: nat)
    requires e.Valid() && IsVarying(e.Kind(), i)
    ensures var ws, s := Widths(e.Kind()), Encode(e);
            && |s| == Offset(ws, |ws|) && i + 1 < |ws|
            && (UnitSize(e.Kind(), i) * FromLE(Field(s, ws, i + 1)) <= j < ws[i] ==> Field(s, ws, i)[j] == 0)
  {
    hide LE, EncodeHeader, StringField, ByteField, Field, Pack;
    FieldsFit(e);
    var fs, ws := Fields(e), Widths(e.Kind());
    FieldOfPack(fs, ws, i);
    FieldOfPack(fs, ws, i + 1);
    match e
    case ProcessCreated(_, _, _, _, image, command, parent, sid, _) =>
      Word16Back(if i == 4 then |image| else if i == 6 then |command| else if i == 8 then |parent| else |sid|);
    case ProcessExited(_, _, _) =>
    case ImageLoaded(_, _, _, _, image) => Word16Back(|image|);
    case RegistryModified(_, _, _, _, _, key, name, preview) =>
      Word16Back(if i == 5 then |key| else if i == 7 then |name| else |preview|);
  }
}
