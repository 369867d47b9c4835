/** Packed structures: fields of fixed width laid end to end. */
module Layout {
  import opened Wire

  /** Offset of field `k`: packed structures have no padding. */
  function Offset(ws: seq<nat>, k: nat): nat
    requires k <= |ws|
  {
    if k == 0 then 0 else Offset(ws, k - 1) + ws[k - 1]
  }

  predicate Fits(fs: seq<seq<byte>>, ws: seq<nat>) {
    |fs| == |ws| && forall i :: 0 <= i < |fs| ==> |fs[i]| == ws[i]
  }

  /** The first `n` fields, end to end. */
  function Joined(fs: seq<seq<byte>>, n: nat): seq<byte>
    requires n <= |fs|
  {
    if n == 0 then [] else Joined(fs, n - 1) + fs[n - 1]
  }

  function Pack(fs: seq<seq<byte>>): seq<byte> { Joined(fs, |fs|) }

  lemma {:induction false} OffsetGrows(ws: seq<nat>, k: nat, n: nat)
    requires k < n <= |ws|
    ensures Offset(ws, k) + ws[k] <= Offset(ws, n)
  {
    if k < n - 1 { OffsetGrows(ws, k, n - 1); }
  }

  lemma {:induction false} JoinedSize(fs: seq<seq<byte>>, ws: seq<nat>, n: nat)
    requires Fits(fs, ws) && n <= |fs|
    ensures |Joined(fs, n)| == Offset(ws, n)
  {
    if n > 0 { JoinedSize(fs, ws, n - 1); }
  }

  /** The bytes of field `k` of a structure. */
  function Field(bytes: seq<byte>, ws: seq<nat>, k: nat): (f: seq<byte>)
    requires k < |ws| && |bytes| == Offset(ws, |ws|)
    ensures |f| == ws[k]
  {
    OffsetGrows(ws, k, |ws|);
    bytes[Offset(ws, k)..Offset(ws, k) + ws[k]]
  }

  lemma {:induction false} JoinedField(fs: seq<seq<byte>>, ws: seq<nat>, k: nat, n: nat)
    requires Fits(fs, ws) && k < n <= |fs|
    ensures |Joined(fs, n)| == Offset(ws, n) && Offset(ws, k) + ws[k] <= Offset(ws, n)
    ensures Joined(fs, n)[Offset(ws, k)..Offset(ws, k) + ws[k]] == fs[k]
  {
    JoinedSize(fs, ws, n);
    JoinedSize(fs, ws, n - 1);
    OffsetGrows(ws, k, n);
    if k < n - 1 {
      JoinedField(fs, ws, k, n - 1);
      var off := Offset(ws, k);
      assert Joined(fs, n)[off..off + ws[k]] == Joined(fs, n - 1)[off..off + ws[k]];
    } else {
      assert Joined(fs, n) == Joined(fs, k) + fs[k];
    }
  }

  /** Every field reads back as it was laid down. */
  lemma FieldOfPack(fs: seq<seq<byte>>, ws: seq<nat>, k: nat)
    requires Fits(fs, ws) && k < |fs|
    ensures |Pack(fs)| == Offset(ws, |ws|) && Field(Pack(fs), ws, k) == fs[k]
  {
    JoinedField(fs, ws, k, |fs|);
  }

  /** A structure taken apart. */
  function Unpack(bytes: seq<byte>, ws: seq<nat>): (fs: seq<seq<byte>>)
    requires |bytes| == Offset(ws, |ws|)
    ensures Fits(fs, ws)
  {
    seq(|ws|, k requires 0 <= k < |ws| => Field(bytes, ws, k))
  }

  lemma UnpackPack(fs: seq<seq<byte>>, ws: seq<nat>)
    requires Fits(fs, ws)
    ensures |Pack(fs)| == Offset(ws, |ws|) && Unpack(Pack(fs), ws) == fs
  {
    JoinedSize(fs, ws, |fs|);
    forall k | 0 <= k < |fs| ensures Field(Pack(fs), ws, k) == fs[k] {
      FieldOfPack(fs, ws, k);
    }
    hide Field, Pack;
  }

  /** Field `k` with its first bytes overwritten. */
  function Overwrite(fs: seq<seq<byte>>, k: nat, data: seq<byte>): seq<seq<byte>>
    requires k < |fs| && |data| <= |fs[k]|
  {
    fs[k := data + fs[k][|data|..]]
  }

  lemma {:induction false} JoinedBefore(fs: seq<seq<byte>>, k: nat, f: seq<byte>, n: nat)
    requires n <= k < |fs|
    ensures Joined(fs[k := f], n) == Joined(fs, n)
  {
    if n > 0 { JoinedBefore(fs, k, f, n - 1); }
  }

  lemma SpliceLeft(a: seq<byte>, b: seq<byte>, off: nat, data: seq<byte>)
    requires off + |data| <= |a|
    ensures Splice(a + b, off, data) == Splice(a, off, data) + b
  {
  }

  lemma SpliceRight(a: seq<byte>, b: seq<byte>, data: seq<byte>)
    requires |data| <= |b|
    ensures Splice(a + b, |a|, data) == a + (data + b[|data|..])
  {
  }

  lemma {:induction false} JoinedSplice(fs: seq<seq<byte>>, ws: seq<nat>, k: nat, data: seq<byte>, n: nat)
    requires Fits(fs, ws) && k < n <= |fs| && |data| <= ws[k]
    ensures |Joined(fs, n)| == Offset(ws, n) && Offset(ws, k) + |data| <= Offset(ws, n)
    ensures Joined(Overwrite(fs, k, data), n) == Splice(Joined(fs, n), Offset(ws, k), data)
  {
    hide Splice;
    JoinedSize(fs, ws, n);
    JoinedSize(fs, ws, n - 1);
    OffsetGrows(ws, k, n);
    if k == n - 1 {
      JoinedBefore(fs, k, data + fs[k][|data|..], k);
      SpliceRight(Joined(fs, k), fs[k], data);
    } else {
      JoinedSplice(fs, ws, k, data, n - 1);
      SpliceLeft(Joined(fs, n - 1), fs[n - 1], Offset(ws, k), data);
    }
  }

  /** A write at the offset of a field, no longer than the field, changes that field and no other, and
      stays inside the structure. */
  lemma SpliceField(fs: seq<seq<byte>>, ws: seq<nat>, k: nat, data: seq<byte>)
    requires Fits(fs, ws) && k < |fs| && |data| <= ws[k]
    ensures Fits(Overwrite(fs, k, data), ws)
    ensures |Pack(fs)| == Offset(ws, |ws|) && Offset(ws, k) + |data| <= |Pack(fs)|
    ensures Splice(Pack(fs), Offset(ws, k), data) == Pack(Overwrite(fs, k, data))
  {
    JoinedSplice(fs, ws, k, data, |fs|);
  }

  function ZeroFields(ws: seq<nat>): (fs: seq<seq<byte>>)
    ensures Fits(fs, ws)
  {
    seq(|ws|, i requires 0 <= i < |ws| => Zeros(ws[i]))
  }

  lemma {:induction false} JoinedZeros(ws: seq<nat>, n: nat)
    requires n <= |ws|
    ensures Joined(ZeroFields(ws), n) == Zeros(Offset(ws, n))
  {
    if n > 0 { JoinedZeros(ws, n - 1); }
  }

  // ---------------------------------------------------------------- UTF-16 strings in fixed fields

  /** UTF-16 units as bytes, little-endian. */
  function UnitBytes(us: seq<u16>): (s: seq<byte>)
    ensures |s| == 2 * |us|
  {
    seq(2 * |us|, i requires 0 <= i < 2 * |us| => if i % 2 == 0 then us[i / 2] % 256 else us[i / 2] / 256)
  }

  function Unit(low: byte, high: byte): u16 { low + 256 * high }

  /** The first `n` units of a byte string. */
  function UnitsFrom(s: seq<byte>, n: nat): (us: seq<u16>)
    requires 2 * n <= |s|
    ensures |us| == n
  {
    seq(n, i requires 0 <= i < n => Unit(s[2 * i], s[2 * i + 1]))
  }

  lemma UnitsRoundTrip(us: seq<u16>, rest: seq<byte>)
    ensures UnitsFrom(UnitBytes(us) + rest, |us|) == us
  {
    var s := UnitBytes(us) + rest;
    forall i | 0 <= i < |us| ensures UnitsFrom(s, |us|)[i] == us[i] {
      assert s[2 * i] == us[i] % 256 && s[2 * i + 1] == us[i] / 256;
    }
  }

  /** A string in a field of `max` units: the units, then zeros. */
  function StringField(us: seq<u16>, max: nat): (s: seq<byte>)
    requires |us| <= max
    ensures |s| == 2 * max
    ensures forall i :: 2 * |us| <= i < 2 * max ==> s[i] == 0
  {
    UnitBytes(us) + Zeros(2 * max - 2 * |us|)
  }

  lemma StringWritten(us: seq<u16>, max: nat)
    requires |us| <= max
    ensures UnitBytes(us) + Zeros(2 * max)[2 * |us|..] == StringField(us, max)
  {
  }

  /** A byte string in a field of `max` bytes. */
  function ByteField(bs: seq<byte>, max: nat): (s: seq<byte>)
    requires |bs| <= max
    ensures |s| == max
    ensures forall i :: |bs| <= i < max ==> s[i] == 0
  {
    bs + Zeros(max - |bs|)
  }

  lemma BytesWritten(bs: seq<byte>, max: nat)
    requires |bs| <= max
    ensures bs + Zeros(max)[|bs|..] == ByteField(bs, max)
  {
  }

  // ---------------------------------------------------------------- writes, field by field

  datatype FieldWrite = FieldWrite(field: nat, data: seq<byte>)

  function PutOne(fs: seq<seq<byte>>, w: FieldWrite): (r: seq<seq<byte>>)
    ensures |r| == |fs|
  {
    if w.field < |fs| && |w.data| <= |fs[w.field]| then Overwrite(fs, w.field, w.data) else fs
  }

  /** The fields after the writes, first to last. */
  function PutAll(fs: seq<seq<byte>>, ws: seq<FieldWrite>): (r: seq<seq<byte>>)
    ensures |r| == |fs|
  {
    if ws == [] then fs else PutOne(PutAll(fs, ws[..|ws| - 1]), ws[|ws| - 1])
  }

  lemma PutNext(fs: seq<seq<byte>>, ws: seq<FieldWrite>, i: nat, data: seq<byte>, f: seq<byte>)
    requires i < |fs| && |data| <= |PutAll(fs, ws)[i]| && data + PutAll(fs, ws)[i][|data|..] == f
    ensures PutAll(fs, ws + [FieldWrite(i, data)]) == PutAll(fs, ws)[i := f]
  {
    assert (ws + [FieldWrite(i, data)])[..|ws|] == ws;
  }

  lemma PutWhole(fs: seq<seq<byte>>, ws: seq<FieldWrite>, i: nat, data: seq<byte>)
    requires i < |fs| && |data| == |PutAll(fs, ws)[i]|
    ensures PutAll(fs, ws + [FieldWrite(i, data)]) == PutAll(fs, ws)[i := data]
  {
    PutNext(fs, ws, i, data, data);
  }

  lemma PutFirst(fs: seq<seq<byte>>, i: nat, data: seq<byte>)
    requires i < |fs| && |data| == |fs[i]|
    ensures PutAll(fs, [FieldWrite(i, data)]) == fs[i := data]
  {
    assert PutAll(fs, []) == fs && [] + [FieldWrite(i, data)] == [FieldWrite(i, data)];
    PutWhole(fs, [], i, data);
  }
}
