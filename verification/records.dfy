/** The events of the process, image and registry callbacks as values, their packed form and the
    reader's side of the wire format. */
module EventRecords {
  import opened Wire
  import opened Layout

  datatype Event =
    | ProcessCreated(
        header: Header, processId: u32, parentId: u32, creatorId: u32, imagePath: seq<u16>, commandLine: seq<u16>,
        parentImage: seq<u16>, userSid: seq<u16>, integrity: u32)
    | ProcessExited(header: Header, processId: u32, exitCode: u32)
    | ImageLoaded(header: Header, processId: u32, imageBase: u64, imageSize: u64, imagePath: seq<u16>)
    | RegistryModified(
        header: Header, processId: u32, operation: u16, valueType: u32, dataSize: u32, keyPath: seq<u16>,
        valueName: seq<u16>, preview: seq<byte>)
  {
    function Kind(): EventKind {
      match this
      case ProcessCreated(_, _, _, _, _, _, _, _, _) => ProcessCreate
      case ProcessExited(_, _, _) => ProcessExit
      case ImageLoaded(_, _, _, _, _) => ImageLoad
      case RegistryModified(_, _, _, _, _, _, _, _) => RegistryModify
    }

    /** The same event under another header. */
    function WithHeader(h: Header): Event {
      match this
      case ProcessCreated(_, pid, parentId, creatorId, image, command, parent, sid, integrity) =>
        ProcessCreated(h, pid, parentId, creatorId, image, command, parent, sid, integrity)
      case ProcessExited(_, pid, code) => ProcessExited(h, pid, code)
      case ImageLoaded(_, pid, start, size, image) => ImageLoaded(h, pid, start, size, image)
      case RegistryModified(_, pid, op, ty, dataSize, key, name, preview) =>
        RegistryModified(h, pid, op, ty, dataSize, key, name, preview)
    }

    /** The header names the kind and its size; every string leaves the reserved unit free. */
    predicate Valid() {
      && header.typeCode == TypeCode(Kind()) && header.size == EventSize(Kind())
      && match this {
           case ProcessCreated(_, _, _, _, image, command, parent, sid, _) =>
             |image| < IMAGE_PATH_MAX && |command| < COMMAND_LINE_MAX && |parent| < IMAGE_PATH_MAX && |sid| < USER_SID_MAX
           case ProcessExited(_, _, _) => true
           case ImageLoaded(_, _, _, _, image) => |image| < IMAGE_PATH_MAX
           case RegistryModified(_, _, _, _, _, key, name, preview) =>
             |key| < REGISTRY_KEY_PATH_MAX && |name| < REGISTRY_VALUE_NAME_MAX && |preview| <= REGISTRY_DATA_PREVIEW_MAX
         }
    }
  }

  /** Kinds modelled byte by byte. */
  predicate HasLayout(k: EventKind) { k.ProcessCreate? || k.ProcessExit? || k.ImageLoad? || k.RegistryModify? }

  /** Field widths of the packed structures, header first. */
  function Widths(k: EventKind): seq<nat> {
    match k
    case ProcessCreate => [24, 4, 4, 4, 1024, 2, 8192, 2, 1024, 2, 384, 2, 4]
    case ImageLoad => [24, 4, 8, 8, 1024, 2]
    case RegistryModify => [24, 4, 2, 4, 4, 1024, 2, 256, 2, 256, 2]
    case _ => [24, 4, 4]
  }

  lemma RegistryWidths()
    ensures var ws := Widths(RegistryModify);
            && |ws| == 11 && ws[1] == 4 && ws[2] == 2 && ws[3] == 4 && ws[4] == 4 && ws[5] == 1024 && ws[6] == 2
            && ws[7] == 256 && ws[8] == 2 && ws[9] == 256 && ws[10] == 2
  {
  }

  lemma CreateWidths()
    ensures var ws := Widths(ProcessCreate);
            && |ws| == 13 && ws[1] == 4 && ws[2] == 4 && ws[3] == 4 && ws[4] == 1024 && ws[5] == 2 && ws[6] == 8192 && ws[7] == 2
            && ws[12] == 4
  {
  }

  lemma LoadWidths()
    ensures var ws := Widths(ImageLoad); |ws| == 6 && ws[1] == 4 && ws[2] == 8 && ws[3] == 8 && ws[4] == 1024 && ws[5] == 2
  {
  }

  lemma SmallOffsets(ws: seq<nat>)
    requires |ws| >= 3
    ensures Offset(ws, 0) == 0 && Offset(ws, 1) == ws[0] && Offset(ws, 2) == ws[0] + ws[1]
    ensures Offset(ws, 3) == ws[0] + ws[1] + ws[2]
  {
    assert Offset(ws, 1) == Offset(ws, 0) + ws[0] && Offset(ws, 2) == Offset(ws, 1) + ws[1];
  }

  lemma NextOffsets(ws: seq<nat>, k: nat)
    requires k + 3 <= |ws|
    ensures Offset(ws, k + 1) == Offset(ws, k) + ws[k]
    ensures Offset(ws, k + 2) == Offset(ws, k) + ws[k] + ws[k + 1]
    ensures Offset(ws, k + 3) == Offset(ws, k) + ws[k] + ws[k + 1] + ws[k + 2]
  {
  }

  /** The widths add up to `size_of` of each structure. */
  lemma LayoutSizes(k: EventKind)
    requires HasLayout(k)
    ensures Offset(Widths(k), |Widths(k)|) == EventSize(k)
  {
    var ws := Widths(k);
    hide Offset;
    SmallOffsets(ws);
    if k.ImageLoad? {
      NextOffsets(ws, 3);
    } else if k.RegistryModify? {
      NextOffsets(ws, 3);
      NextOffsets(ws, 6);
      NextOffsets(ws, 8);
    } else if k.ProcessCreate? {
      NextOffsets(ws, 3);
      NextOffsets(ws, 6);
      NextOffsets(ws, 9);
      NextOffsets(ws, 10);
    }
  }

  // ---------------------------------------------------------------- writer

  function Fields(e: Event): seq<seq<byte>>
    requires e.Valid()
  {
    match e
    case ProcessCreated(h, pid, parentId, creatorId, image, command, parent, sid, integrity) =>
      [EncodeHeader(h), LE(pid, 4), LE(parentId, 4), LE(creatorId, 4), StringField(image, 512), LE(|image|, 2),
       StringField(command, 4096), LE(|command|, 2), StringField(parent, 512), LE(|parent|, 2),
       StringField(sid, 192), LE(|sid|, 2), LE(integrity, 4)]
    case ProcessExited(h, pid, code) => [EncodeHeader(h), LE(pid, 4), LE(code, 4)]
    case ImageLoaded(h, pid, start, size, image) =>
      [EncodeHeader(h), LE(pid, 4), LE(start, 8), LE(size, 8), StringField(image, 512), LE(|image|, 2)]
    case RegistryModified(h, pid, op, ty, dataSize, key, name, preview) =>
      [EncodeHeader(h), LE(pid, 4), LE(op, 2), LE(ty, 4), LE(dataSize, 4), StringField(key, 512), LE(|key|, 2),
       StringField(name, 128), LE(|name|, 2), ByteField(preview, 256), LE(|preview|, 2)]
  }

  lemma FieldsFit(e: Event)
    requires e.Valid()
    ensures Fits(Fields(e), Widths(e.Kind())) && HasLayout(e.Kind())
  {
    hide LE, EncodeHeader, StringField, ByteField;
  }

  /** The bytes of an event on the wire. */
  function Encode(e: Event): (s: seq<byte>)
    requires e.Valid()
    ensures |s| == EventSize(e.Kind())
  {
    FieldsFit(e);
    LayoutSizes(e.Kind());
    JoinedSize(Fields(e), Widths(e.Kind()), |Fields(e)|);
    Pack(Fields(e))
  }

  // ---------------------------------------------------------------- reader

  /** A string field and the length that follows it; a length beyond the field reads as a full field. */
  function Text(s: seq<byte>, len: seq<byte>): seq<u16> {
    UnitsFrom(s, if FromLE(len) <= |s| / 2 then FromLE(len) else |s| / 2)
  }

  function Data(s: seq<byte>, len: seq<byte>): seq<byte> {
    s[..if FromLE(len) <= |s| then FromLE(len) else |s|]
  }

  function Word16(s: seq<byte>): u16 { FromLE(s) % 0x1_0000 }
  function Word32(s: seq<byte>): u32 { FromLE(s) % 0x1_0000_0000 }
  function Word64(s: seq<byte>): u64 { FromLE(s) % 0x1_0000_0000_0000_0000 }

  function KindOfCode(code: u16): Option<EventKind> {
    match code
    case 1 => Some(ProcessCreate)
    case 2 => Some(ProcessExit)
    case 3 => Some(ImageLoad)
    case 4 => Some(RegistryModify)
    case _ => None
  }

  /** An event of known kind, from its fields. */
  function FromFields(k: EventKind, fs: seq<seq<byte>>): Event
    requires HasLayout(k) && Fits(fs, Widths(k))
  {
    var h := DecodeHeader(fs[0]);
    if k.ProcessCreate? then
      ProcessCreated(h, Word32(fs[1]), Word32(fs[2]), Word32(fs[3]), Text(fs[4], fs[5]), Text(fs[6], fs[7]),
                     Text(fs[8], fs[9]), Text(fs[10], fs[11]), Word32(fs[12]))
    else if k.ImageLoad? then ImageLoaded(h, Word32(fs[1]), Word64(fs[2]), Word64(fs[3]), Text(fs[4], fs[5]))
    else if k.RegistryModify? then
      RegistryModified(h, Word32(fs[1]), Word16(fs[2]), Word32(fs[3]), Word32(fs[4]), Text(fs[5], fs[6]),
                       Text(fs[7], fs[8]), Data(fs[9], fs[10]))
    else ProcessExited(h, Word32(fs[1]), Word32(fs[2]))
  }

  /** What the agent reads: the header tells the kind, the kind tells the layout. */
  function Decode(s: seq<byte>): Option<Event> {
    if |s| < HEADER_SIZE then None
    else match KindOfCode(DecodeHeader(s).typeCode)
      case None => None
      case Some(k) =>
        if |s| != Offset(Widths(k), |Widths(k)|) then None else Some(FromFields(k, Unpack(s, Widths(k))))
  }

  // ---------------------------------------------------------------- round trip

  lemma Word16Back(n: u16)
    ensures Word16(LE(n, 2)) == n && FromLE(LE(n, 2)) == n
  {
    WordRanges();
    LittleEndianRoundTrip(n, 2);
  }

  lemma Word32Back(n: u32)
    ensures Word32(LE(n, 4)) == n
  {
    WordRanges();
    LittleEndianRoundTrip(n, 4);
  }

  lemma Word64Back(n: u64)
    ensures Word64(LE(n, 8)) == n
  {
    WordRanges();
    LittleEndianRoundTrip(n, 8);
  }

  lemma HeaderBack(h: Header)
    ensures DecodeHeader(EncodeHeader(h)) == h
  {
    HeaderRoundTrip(h, []);
    assert EncodeHeader(h) + [] == EncodeHeader(h);
  }

  lemma TextBack(us: seq<u16>, max: nat)
    requires |us| <= max < 0x1_0000
    ensures Text(StringField(us, max), LE(|us|, 2)) == us
  {
    Word16Back(|us|);
    UnitsRoundTrip(us, Zeros(2 * max - 2 * |us|));
  }

  lemma DataBack(bs: seq<byte>, max: nat)
    requires |bs| <= max < 0x1_0000
    ensures Data(ByteField(bs, max), LE(|bs|, 2)) == bs
  {
    Word16Back(|bs|);
  }

  lemma FieldsBack(e: Event)
    requires e.Valid()
    ensures Fits(Fields(e), Widths(e.Kind())) && HasLayout(e.Kind())
    ensures FromFields(e.Kind(), Fields(e)) == e
  {
    hide LE, EncodeHeader, DecodeHeader, StringField, ByteField, Word16, Word32, Word64, Text, Data;
    FieldsFit(e);
    HeaderBack(e.header);
    Word32Back(e.processId);
    match e
    case ProcessCreated(_, _, parentId, creatorId, image, command, parent, sid, integrity) =>
      Word32Back(parentId);
      Word32Back(creatorId);
      Word32Back(integrity);
      TextBack(image, 512);
      TextBack(command, 4096);
      TextBack(parent, 512);
      TextBack(sid, 192);
    case ProcessExited(_, _, code) => Word32Back(code);
    case ImageLoaded(_, _, start, size, image) =>
      Word64Back(start);
      Word64Back(size);
      TextBack(image, 512);
    case RegistryModified(_, _, op, ty, dataSize, key, name, preview) =>
      Word16Back(op);
      Word32Back(ty);
      Word32Back(dataSize);
      TextBack(key, 512);
      TextBack(name, 128);
      DataBack(preview, 256);
  }

  lemma {:induction false} JoinedStarts(fs: seq<seq<byte>>, n: nat)
    requires 0 < n <= |fs|
    ensures fs[0] <= Joined(fs, n)
  {
    if n > 1 { JoinedStarts(fs, n - 1); }
  }

  /** Every packed event starts with its header. */
  lemma EncodeStarts(e: Event)
    requires e.Valid()
    ensures DecodeHeader(Encode(e)) == e.header
  {
    hide EncodeHeader, DecodeHeader, LE, StringField, ByteField;
    FieldsFit(e);
    var fs := Fields(e);
    JoinedStarts(fs, |fs|);
    assert fs[0] == EncodeHeader(e.header);
    HeaderRoundTrip(e.header, Encode(e)[HEADER_SIZE..]);
    assert Encode(e) == fs[0] + Encode(e)[HEADER_SIZE..];
  }

  /** The agent recovers every event it is sent, whatever its strings and numbers. */
  lemma EventRoundTrip(e: Event)
    requires e.Valid()
    ensures Decode(Encode(e)) == Some(e)
  {
    EncodeStarts(e);
    FieldsBack(e);
    UnpackPack(Fields(e), Widths(e.Kind()));
    LayoutSizes(e.Kind());
    hide Fields, FromFields, Unpack, DecodeHeader, Offset, Pack, Event.Valid;
  }

  /** Two events with the same bytes are the same event. */
  lemma EncodeInjective(e1: Event, e2: Event)
    requires e1.Valid() && e2.Valid() && Encode(e1) == Encode(e2)
    ensures e1 == e2
  {
    hide Encode, Decode;
    EventRoundTrip(e1);
    EventRoundTrip(e2);
  }

  // ---------------------------------------------------------------- where each field is, by offset

  lemma RegistryOffsets()
    ensures var ws := Widths(RegistryModify);
            && Offset(ws, 1) == 24 && Offset(ws, 2) == 28 && Offset(ws, 3) == 30 && Offset(ws, 4) == 34 && Offset(ws, 5) == 38
            && Offset(ws, 6) == 1062 && Offset(ws, 7) == 1064 && Offset(ws, 8) == 1320 && Offset(ws, 9) == 1322
            && Offset(ws, 10) == 1578
  {
    var ws := Widths(RegistryModify);
    hide Offset;
    SmallOffsets(ws);
    NextOffsets(ws, 3);
    NextOffsets(ws, 6);
    NextOffsets(ws, 7);
  }

  lemma CreateOffsets()
    ensures var ws := Widths(ProcessCreate);
            && Offset(ws, 1) == 24 && Offset(ws, 2) == 28 && Offset(ws, 3) == 32 && Offset(ws, 4) == 36 && Offset(ws, 5) == 1060
            && Offset(ws, 6) == 1062 && Offset(ws, 7) == 9254 && Offset(ws, 8) == 9256 && Offset(ws, 9) == 10280
            && Offset(ws, 10) == 10282 && Offset(ws, 11) == 10666 && Offset(ws, 12) == 10668
  {
    var ws := Widths(ProcessCreate);
    hide Offset;
    SmallOffsets(ws);
    NextOffsets(ws, 3);
    NextOffsets(ws, 6);
    NextOffsets(ws, 9);
  }

  lemma LoadOffsets()
    ensures var ws := Widths(ImageLoad);
            Offset(ws, 1) == 24 && Offset(ws, 2) == 28 && Offset(ws, 3) == 36 && Offset(ws, 4) == 44 && Offset(ws, 5) == 1068
  {
    var ws := Widths(ImageLoad);
    hide Offset;
    SmallOffsets(ws);
    NextOffsets(ws, 3);
  }

  lemma ExitOffsets()
    ensures var ws := Widths(ProcessExit); Offset(ws, 1) == 24 && Offset(ws, 2) == 28
  {
    hide Offset;
    SmallOffsets(Widths(ProcessExit));
  }

  /** The bytes of `e` from `i` to `j`. */
  function Bytes(e: Event, i: nat, j: nat): seq<byte>
    requires e.Valid() && i <= j <= EventSize(e.Kind())
  {
    Encode(e)[i..j]
  }

  lemma FieldBytes(e: Event, k: nat)
    requires e.Valid() && k < |Widths(e.Kind())|
    ensures var ws := Widths(e.Kind()); var i := Offset(ws, k);
            && i + ws[k] <= EventSize(e.Kind()) && k < |Fields(e)| && Bytes(e, i, i + ws[k]) == Fields(e)[k]
  {
    hide LE, EncodeHeader, StringField, ByteField, Fields, Widths, Offset, Pack, Event.Kind, Event.Valid;
    FieldsFit(e);
    FieldOfPack(Fields(e), Widths(e.Kind()), k);
    OffsetGrows(Widths(e.Kind()), k, |Widths(e.Kind())|);
    LayoutSizes(e.Kind());
  }

  lemma RegistryBytes(e: Event)
    requires e.RegistryModified? && e.Valid()
    ensures Bytes(e, 24, 28) == LE(e.processId, 4) && Bytes(e, 28, 30) == LE(e.operation, 2)
    ensures Bytes(e, 30, 34) == LE(e.valueType, 4) && Bytes(e, 34, 38) == LE(e.dataSize, 4)
    ensures Bytes(e, 38, 1062) == StringField(e.keyPath, 512) && Bytes(e, 1062, 1064) == LE(|e.keyPath|, 2)
    ensures Bytes(e, 1064, 1320) == StringField(e.valueName, 128) && Bytes(e, 1320, 1322) == LE(|e.valueName|, 2)
    ensures Bytes(e, 1322, 1578) == ByteField(e.preview, 256) && Bytes(e, 1578, 1580) == LE(|e.preview|, 2)
  {
    RegistryWidths();
    RegistryOffsets();
    FieldBytes(e, 1);
    FieldBytes(e, 2);
    FieldBytes(e, 3);
    FieldBytes(e, 4);
    FieldBytes(e, 5);
    FieldBytes(e, 6);
    FieldBytes(e, 7);
    FieldBytes(e, 8);
    FieldBytes(e, 9);
    FieldBytes(e, 10);
    hide LE, EncodeHeader, StringField, ByteField, Offset, Widths, Bytes;
  }

  lemma CreateBytes(e: Event)
    requires e.ProcessCreated? && e.Valid()
    ensures Bytes(e, 24, 28) == LE(e.processId, 4) && Bytes(e, 28, 32) == LE(e.parentId, 4) && Bytes(e, 32, 36) == LE(e.creatorId, 4)
    ensures Bytes(e, 36, 1060) == StringField(e.imagePath, 512) && Bytes(e, 1060, 1062) == LE(|e.imagePath|, 2)
    ensures Bytes(e, 1062, 9254) == StringField(e.commandLine, 4096) && Bytes(e, 9254, 9256) == LE(|e.commandLine|, 2)
    ensures Bytes(e, 9256, 10280) == StringField(e.parentImage, 512) && Bytes(e, 10280, 10282) == LE(|e.parentImage|, 2)
    ensures Bytes(e, 10282, 10666) == StringField(e.userSid, 192) && Bytes(e, 10666, 10668) == LE(|e.userSid|, 2)
    ensures Bytes(e, 10668, 10672) == LE(e.integrity, 4)
  {
    AllCreateWidths();
    CreateOffsets();
    FieldBytes(e, 1);
    FieldBytes(e, 2);
    FieldBytes(e, 3);
    FieldBytes(e, 4);
    FieldBytes(e, 5);
    FieldBytes(e, 6);
    FieldBytes(e, 7);
    FieldBytes(e, 8);
    FieldBytes(e, 9);
    FieldBytes(e, 10);
    FieldBytes(e, 11);
    FieldBytes(e, 12);
    hide LE, EncodeHeader, StringField, Offset, Widths, Bytes;
  }

  lemma AllCreateWidths()
    ensures var ws := Widths(ProcessCreate);
            && |ws| == 13 && ws[1] == 4 && ws[2] == 4 && ws[3] == 4 && ws[4] == 1024 && ws[5] == 2 && ws[6] == 8192 && ws[7] == 2
            && ws[8] == 1024 && ws[9] == 2 && ws[10] == 384 && ws[11] == 2 && ws[12] == 4
  {
  }

  lemma LoadBytes(e: Event)
    requires e.ImageLoaded? && e.Valid()
    ensures Bytes(e, 24, 28) == LE(e.processId, 4) && Bytes(e, 28, 36) == LE(e.imageBase, 8) && Bytes(e, 36, 44) == LE(e.imageSize, 8)
    ensures Bytes(e, 44, 1068) == StringField(e.imagePath, 512) && Bytes(e, 1068, 1070) == LE(|e.imagePath|, 2)
  {
    LoadWidths();
    LoadOffsets();
    FieldBytes(e, 1);
    FieldBytes(e, 2);
    FieldBytes(e, 3);
    FieldBytes(e, 4);
    FieldBytes(e, 5);
    hide LE, EncodeHeader, StringField, Offset, Widths, Bytes;
  }

  lemma ExitBytes(e: Event)
    requires e.ProcessExited? && e.Valid()
    ensures Bytes(e, 24, 28) == LE(e.processId, 4) && Bytes(e, 28, 32) == LE(e.exitCode, 4)
  {
    ExitOffsets();
    assert Widths(ProcessExit)[1] == 4 && Widths(ProcessExit)[2] == 4 && |Widths(ProcessExit)| == 3;
    FieldBytes(e, 1);
    FieldBytes(e, 2);
    hide LE, EncodeHeader, Offset, Widths, Bytes;
  }

  /** Every event starts with its header. */
  lemma StartBytes(e: Event)
    requires e.Valid()
    ensures Bytes(e, 0, 24) == EncodeHeader(e.header)
  {
    FieldBytes(e, 0);
    assert Offset(Widths(e.Kind()), 0) == 0 && Widths(e.Kind())[0] == 24;
    hide LE, EncodeHeader, StringField, ByteField, Offset, Bytes;
  }

  /** Units are little-endian. */
  lemma UnitBytesAt(us: seq<u16>, i: nat)
    requires i < |us|
    ensures UnitBytes(us)[2 * i] == us[i] % 256 && UnitBytes(us)[2 * i + 1] == us[i] / 256
  {
  }
}
