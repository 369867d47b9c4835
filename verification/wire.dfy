/** Wire format shared by the driver and the agent: integer encodings, the packed event header,
    the seven event kinds and their sizes. Multi-byte integers are little-endian, as the packed
    structures are on the target. */
module Wire {

  type byte = x: int | 0 <= x < 256
  type u16 = x: int | 0 <= x < 0x1_0000
  type u32 = x: int | 0 <= x < 0x1_0000_0000
  type u64 = x: int | 0 <= x < 0x1_0000_0000_0000_0000
  type i64 = x: int | -0x8000_0000_0000_0000 <= x < 0x8000_0000_0000_0000

  /** `fetch_add` on a 32-bit counter. */
  function Add32(x: u32, n: nat): u32 {
    (x + n) % 0x1_0000_0000
  }

  datatype Option<+T> = None | Some(value: T)

  const EVENT_VERSION: u16 := 6
  const IMAGE_PATH_MAX: nat := 512
  const COMMAND_LINE_MAX: nat := 4096
  const USER_SID_MAX: nat := 192
  const REGISTRY_KEY_PATH_MAX: nat := 512
  const REGISTRY_VALUE_NAME_MAX: nat := 128
  const REGISTRY_DATA_PREVIEW_MAX: nat := 256
  const HEADER_SIZE: nat := 24
  const LARGEST_EVENT: nat := 10672

  datatype EventKind =
    | ProcessCreate | ProcessExit | ImageLoad | RegistryModify
    | ThreadCreate | ThreadExit | ProcessHandleAccess

  function TypeCode(k: EventKind): u16 {
    match k
    case ProcessCreate => 1
    case ProcessExit => 2
    case ImageLoad => 3
    case RegistryModify => 4
    case ThreadCreate => 5
    case ThreadExit => 6
    case ProcessHandleAccess => 7
  }

  /** `size_of` of each packed event structure. */
  function EventSize(k: EventKind): (n: nat)
    ensures HEADER_SIZE < n <= LARGEST_EVENT
  {
    match k
    case ProcessCreate =>
      HEADER_SIZE + 12 + (2 * IMAGE_PATH_MAX + 2) + (2 * COMMAND_LINE_MAX + 2)
      + (2 * IMAGE_PATH_MAX + 2) + (2 * USER_SID_MAX + 2) + 4
    case ProcessExit => HEADER_SIZE + 8
    case ImageLoad => HEADER_SIZE + 20 + (2 * IMAGE_PATH_MAX + 2)
    case RegistryModify =>
      HEADER_SIZE + 14 + (2 * REGISTRY_KEY_PATH_MAX + 2) + (2 * REGISTRY_VALUE_NAME_MAX + 2)
      + (REGISTRY_DATA_PREVIEW_MAX + 2)
    case ThreadCreate => HEADER_SIZE + 12
    case ThreadExit => HEADER_SIZE + 8
    case ProcessHandleAccess => HEADER_SIZE + 18
  }

  /** The numbers that the agent relies on, by value. */
  lemma WireNumbers()
    ensures EVENT_VERSION == 6 && HEADER_SIZE == 24 && LARGEST_EVENT == 10672
    ensures TypeCode(ProcessCreate) == 1 && TypeCode(ProcessExit) == 2 && TypeCode(ImageLoad) == 3 && TypeCode(RegistryModify) == 4
    ensures TypeCode(ThreadCreate) == 5 && TypeCode(ThreadExit) == 6 && TypeCode(ProcessHandleAccess) == 7
    ensures EventSize(ProcessCreate) == 10672 && EventSize(ProcessExit) == 32 && EventSize(ImageLoad) == 1070
    ensures EventSize(RegistryModify) == 1580 && EventSize(ThreadCreate) == 36 && EventSize(ThreadExit) == 32
    ensures EventSize(ProcessHandleAccess) == 42
  {
  }

  // ---------------------------------------------------------------- little-endian integers

  function Pow256(k: nat): (p: nat)
    ensures p > 0
  {
    if k == 0 then 1 else 256 * Pow256(k - 1)
  }

  /** The low `k` bytes of `n`, least significant first. */
  function LE(n: nat, k: nat): (s: seq<byte>)
    ensures |s| == k
  {
    if k == 0 then [] else [n % 256] + LE(n / 256, k - 1)
  }

  function FromLE(s: seq<byte>): (n: nat) {
    if s == [] then 0 else s[0] + 256 * FromLE(s[1..])
  }

  /** Reading back what was written gives the value, reduced to the field width. */
  lemma {:induction false} LittleEndianRoundTrip(n: nat, k: nat)
    requires n < Pow256(k)
    ensures FromLE(LE(n, k)) == n
  {
    if k > 0 {
      LittleEndianRoundTrip(n / 256, k - 1);
      assert LE(n, k)[1..] == LE(n / 256, k - 1);
    }
  }

  /** The least significant byte comes first. */
  lemma LittleEndianWords(n: nat)
    ensures LE(n, 2) == [n % 256, n / 0x100 % 256]
    ensures LE(n, 4) == [n % 256, n / 0x100 % 256, n / 0x1_0000 % 256, n / 0x100_0000 % 256]
    ensures LE(n, 8) == LE(n, 4) + LE(n / 0x1_0000_0000, 4)
  {
    FourBytes(n);
    FourBytes(n / 0x1_0000_0000);
    EightBytes(n);
    hide LE;
  }

  lemma FourBytes(n: nat)
    ensures LE(n, 2) == [n % 256, n / 0x100 % 256]
    ensures LE(n, 4) == [n % 256, n / 0x100 % 256, n / 0x1_0000 % 256, n / 0x100_0000 % 256]
  {
    var a := n / 256;
    var b := a / 256;
    var c := b / 256;
    Quotients(n);
    Digits(n, a, b, c);
    hide LE;
  }

  lemma Quotients(n: nat)
    ensures n / 256 / 256 == n / 0x1_0000 && n / 256 / 256 / 256 == n / 0x100_0000
  {
  }

  lemma Digits(n: nat, a: nat, b: nat, c: nat)
    requires a == n / 256 && b == a / 256 && c == b / 256
    ensures LE(n, 2) == [n % 256, a % 256] && LE(n, 4) == [n % 256, a % 256, b % 256, c % 256]
  {
    assert LE(c, 1) == [c % 256] + LE(c / 256, 0) && LE(a, 1) == [a % 256] + LE(b, 0);
    assert LE(b, 2) == [b % 256] + LE(c, 1);
    assert LE(a, 3) == [a % 256] + LE(b, 2);
  }

  lemma EightBytes(n: nat)
    ensures LE(n, 8) == LE(n, 4) + LE(n / 0x1_0000_0000, 4)
  {
    var a := n / 256;
    var b := a / 256;
    var c := b / 256;
    var d := c / 256;
    assert d == n / 0x1_0000_0000;
    assert LE(n, 8) == [n % 256] + LE(a, 7) && LE(n, 4) == [n % 256] + LE(a, 3);
    assert LE(a, 7) == [a % 256] + LE(b, 6) && LE(a, 3) == [a % 256] + LE(b, 2);
    assert LE(b, 6) == [b % 256] + LE(c, 5) && LE(b, 2) == [b % 256] + LE(c, 1);
    assert LE(c, 5) == [c % 256] + LE(d, 4) && LE(c, 1) == [c % 256] + LE(d, 0);
  }

  lemma WordRanges()
    ensures Pow256(2) == 0x1_0000
    ensures Pow256(4) == 0x1_0000_0000
    ensures Pow256(8) == 0x1_0000_0000_0000_0000
  {
    assert Pow256(1) == 256 && Pow256(2) == 65536 && Pow256(3) == 16777216 && Pow256(4) == 0x1_0000_0000;
    assert Pow256(5) == 0x100_0000_0000 && Pow256(6) == 0x1_0000_0000_0000 && Pow256(7) == 0x100_0000_0000_0000;
  }

  function Zeros(n: nat): (s: seq<byte>)
    ensures |s| == n
    ensures forall i :: 0 <= i < n ==> s[i] == 0
  {
    seq(n, _ => 0)
  }

  /** `base` with `data` written at `off`. */
  function Splice(base: seq<byte>, off: nat, data: seq<byte>): (r: seq<byte>)
    requires off + |data| <= |base|
    ensures |r| == |base|
  {
    base[..off] + data + base[off + |data|..]
  }

  // ---------------------------------------------------------------- the event header

  datatype Header = Header(version: u16, typeCode: u16, timestamp: i64, size: u32, dropCount: u32, truncCount: u32)

  /** `make_header`, given the values it swaps out of the two counters. */
  function NewHeader(k: EventKind, size: u32, timestamp: i64, drop: u32, trunc: u32): Header {
    Header(EVENT_VERSION, TypeCode(k), timestamp, size, drop, trunc)
  }

  /** A header of an event of kind `k`, whatever its time and its stamps. */
  predicate HeaderFits(h: Header, k: EventKind) {
    h.version == EVENT_VERSION && h.typeCode == TypeCode(k) && h.size == EventSize(k)
  }

  function Unsigned64(x: i64): (u: u64)
    ensures u == x || u == x + 0x1_0000_0000_0000_0000
  {
    if x < 0 then x + 0x1_0000_0000_0000_0000 else x
  }

  function Signed64(x: u64): i64 {
    if x < 0x8000_0000_0000_0000 then x else x - 0x1_0000_0000_0000_0000
  }

  function EncodeHeader(h: Header): (s: seq<byte>)
    ensures |s| == HEADER_SIZE
  {
    LE(h.version, 2) + LE(h.typeCode, 2) + LE(Unsigned64(h.timestamp), 8)
    + LE(h.size, 4) + LE(h.dropCount, 4) + LE(h.truncCount, 4)
  }

  /** What the agent reads at the start of its buffer. */
  function DecodeHeader(s: seq<byte>): Header
    requires |s| >= HEADER_SIZE
  {
    Header(
      FromLE(s[0..2]) % 0x1_0000, FromLE(s[2..4]) % 0x1_0000, Signed64(FromLE(s[4..12]) % 0x1_0000_0000_0000_0000),
      FromLE(s[12..16]) % 0x1_0000_0000, FromLE(s[16..20]) % 0x1_0000_0000, FromLE(s[20..24]) % 0x1_0000_0000)
  }

  lemma HeaderSlices(a: seq<byte>, b: seq<byte>, c: seq<byte>, d: seq<byte>, e: seq<byte>, f: seq<byte>, rest: seq<byte>)
    requires |a| == 2 && |b| == 2 && |c| == 8 && |d| == 4 && |e| == 4 && |f| == 4
    ensures var s := a + b + c + d + e + f + rest;
            && s[0..2] == a && s[2..4] == b && s[4..12] == c && s[12..16] == d && s[16..20] == e && s[20..24] == f
  {
  }

  /** Where each part of the header is. */
  lemma HeaderBytes(h: Header)
    ensures var s := EncodeHeader(h);
            && s[0..2] == LE(h.version, 2) && s[2..4] == LE(h.typeCode, 2) && s[4..12] == LE(Unsigned64(h.timestamp), 8)
            && s[12..16] == LE(h.size, 4) && s[16..20] == LE(h.dropCount, 4) && s[20..24] == LE(h.truncCount, 4)
  {
    HeaderSlices(LE(h.version, 2), LE(h.typeCode, 2), LE(Unsigned64(h.timestamp), 8), LE(h.size, 4),
                 LE(h.dropCount, 4), LE(h.truncCount, 4), []);
    assert EncodeHeader(h) + [] == EncodeHeader(h);
  }

  lemma DecodeFields(h: Header, s: seq<byte>)
    requires |s| >= HEADER_SIZE
    requires FromLE(s[0..2]) == h.version && FromLE(s[2..4]) == h.typeCode && FromLE(s[4..12]) == Unsigned64(h.timestamp)
    requires FromLE(s[12..16]) == h.size && FromLE(s[16..20]) == h.dropCount && FromLE(s[20..24]) == h.truncCount
    ensures DecodeHeader(s) == h
  {
  }

  lemma EncodedWidths(h: Header)
    ensures FromLE(LE(h.version, 2)) == h.version && FromLE(LE(h.typeCode, 2)) == h.typeCode
    ensures FromLE(LE(Unsigned64(h.timestamp), 8)) == Unsigned64(h.timestamp)
    ensures FromLE(LE(h.size, 4)) == h.size && FromLE(LE(h.dropCount, 4)) == h.dropCount
    ensures FromLE(LE(h.truncCount, 4)) == h.truncCount
  {
    WordRanges();
    LittleEndianRoundTrip(h.version, 2);
    LittleEndianRoundTrip(h.typeCode, 2);
    LittleEndianRoundTrip(Unsigned64(h.timestamp), 8);
    LittleEndianRoundTrip(h.size, 4);
    LittleEndianRoundTrip(h.dropCount, 4);
    LittleEndianRoundTrip(h.truncCount, 4);
  }

  /** Every header the driver stamps is recovered by the agent, whatever follows it. */
  lemma HeaderRoundTrip(h: Header, rest: seq<byte>)
    ensures DecodeHeader(EncodeHeader(h) + rest) == h
  {
    EncodedWidths(h);
    HeaderSlices(LE(h.version, 2), LE(h.typeCode, 2), LE(Unsigned64(h.timestamp), 8), LE(h.size, 4),
                 LE(h.dropCount, 4), LE(h.truncCount, 4), rest);
    DecodeFields(h, EncodeHeader(h) + rest);
  }
}
