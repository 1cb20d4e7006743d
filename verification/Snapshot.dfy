/** The detach snapshot: header, kernels, handle log and memory metadata laid over the empty request
    ring, device contents over the empty reply ring. */
module Snapshot {
  import opened Bytes
  import opened Options
  import opened RingIndex
  import opened Wire
  import opened DeviceCopy
  import opened ShmRing

  // ---------------------------------------------------------------- the header

  const MAGIC: nat := 0x5048_4f53_4445_5441
  const HEADER: nat := 56

  datatype Header = Header(magic: nat, clientPid: nat, id: int, pinned: bool,
                           kernels: nat, handles: nat, meta: nat, raw: nat)

  /** C layout: seven bytes of padding follow the flag. */
  const LAYOUT: seq<FieldType> :=
    [Fixed(8), Fixed(4), Fixed(4), Fixed(1), Fixed(7), Fixed(8), Fixed(8), Fixed(8), Fixed(8)]

  predicate Int32Fits(id: int) { -0x8000_0000 <= id < 0x8000_0000 }

  function Bits32(id: int): nat
    requires Int32Fits(id)
  {
    if id >= 0 then id else id + 0x1_0000_0000
  }

  function Int32(bits: nat): int { if bits < 0x8000_0000 then bits else bits - 0x1_0000_0000 }

  /** Every i32 survives its two's-complement form. */
  lemma Int32RoundTrip(id: int)
    requires -0x8000_0000 <= id <= 0x7FFF_FFFF
    ensures Int32Fits(id) && 0 <= Bits32(id) < 0x1_0000_0000 && Int32(Bits32(id)) == id
  {
  }

  function Fields(h: Header, padding: seq<Byte>): seq<Value>
    requires Int32Fits(h.id)
  {
    [Raw(ToLe(h.magic, 8)), Raw(ToLe(h.clientPid, 4)), Raw(ToLe(Bits32(h.id), 4)), Raw([if h.pinned then 1 else 0]),
     Raw(padding), Raw(ToLe(h.kernels, 8)), Raw(ToLe(h.handles, 8)), Raw(ToLe(h.meta, 8)), Raw(ToLe(h.raw, 8))]
  }

  function HeaderOf(vs: seq<Value>): Header
    requires AllWellTyped(LAYOUT, vs)
  {
    assert WellTyped(LAYOUT[3], vs[3]);
    Header(FromLe(vs[0].bytes), FromLe(vs[1].bytes), Int32(FromLe(vs[2].bytes)), vs[3].bytes[0] == 1,
           FromLe(vs[5].bytes), FromLe(vs[6].bytes), FromLe(vs[7].bytes), FromLe(vs[8].bytes))
  }

  function HeaderBytes(h: Header, padding: seq<Byte>): seq<Byte>
    requires Int32Fits(h.id)
  {
    EncodeAll(Fields(h, padding))
  }

  /** `from_bytes`: None is the assertion on the length. */
  function ParseHeader(bytes: seq<Byte>): Option<Header> {
    match DecodeAll(LAYOUT, bytes)
    case None => None
    case Some((vs, rest)) =>
      assert AllWellTyped(LAYOUT, vs) by { DecodeAllOnto(LAYOUT, bytes); }
      Some(HeaderOf(vs))
  }

  predicate Wide(h: Header) {
    && h.magic < Pow256(8) && h.clientPid < Pow256(4) && Int32Fits(h.id)
    && h.kernels < Pow256(8) && h.handles < Pow256(8) && h.meta < Pow256(8) && h.raw < Pow256(8)
  }

  lemma FieldsWellTyped(h: Header, padding: seq<Byte>)
    requires Wide(h) && |padding| == 7
    ensures AllWellTyped(LAYOUT, Fields(h, padding))
  {
    hide ToLe, Pow256;
  }

  lemma FieldsReadBack(h: Header, padding: seq<Byte>)
    requires Wide(h) && |padding| == 7
    ensures AllWellTyped(LAYOUT, Fields(h, padding)) && HeaderOf(Fields(h, padding)) == h
  {
    assert Bits32(h.id) < Pow256(4);
    hide ToLe, FromLe, Pow256;
    FieldsWellTyped(h, padding);
    LeRoundTrip(h.magic, 8);
    LeRoundTrip(h.clientPid, 4);
    LeRoundTrip(Bits32(h.id), 4);
    LeRoundTrip(h.kernels, 8);
    LeRoundTrip(h.handles, 8);
    LeRoundTrip(h.meta, 8);
    LeRoundTrip(h.raw, 8);
  }

  /** Any header reads back, whatever the padding holds and whatever follows it. */
  lemma HeaderRoundTrip(h: Header, padding: seq<Byte>, rest: seq<Byte>)
    requires Wide(h) && |padding| == 7
    ensures ParseHeader(HeaderBytes(h, padding) + rest) == Some(h)
  {
    hide DecodeAll, EncodeAll, AllWellTyped, Fields, HeaderOf, Wide;
    assert Int32Fits(h.id) by { WideId(h); }
    FieldsReadBack(h, padding);
    DecodeEncodeAll(LAYOUT, Fields(h, padding), rest);
  }

  lemma WideId(h: Header)
    requires Wide(h)
    ensures Int32Fits(h.id)
  {
  }

  lemma {:induction false} FixedLengths(ts: seq<FieldType>, vs: seq<Value>)
    requires AllWellTyped(ts, vs) && forall i :: 0 <= i < |ts| ==> ts[i].Fixed?
    ensures |EncodeAll(vs)| == Sizes(ts)
  {
    if ts != [] {
      assert WellTyped(ts[0], vs[0]);
      FixedLengths(ts[1..], vs[1..]);
    }
  }

  function Sizes(ts: seq<FieldType>): nat
    requires forall i :: 0 <= i < |ts| ==> ts[i].Fixed?
  {
    if ts == [] then 0 else ts[0].size + Sizes(ts[1..])
  }

  lemma HeaderSize(h: Header, padding: seq<Byte>)
    requires Wide(h) && |padding| == 7
    ensures |HeaderBytes(h, padding)| == HEADER
  {
    FieldsWellTyped(h, padding);
    FixedLengths(LAYOUT, Fields(h, padding));
    LayoutSize();
  }

  lemma LayoutSize()
    ensures Sizes(LAYOUT) == HEADER
  {
    assert LAYOUT[1..] == [Fixed(4), Fixed(4), Fixed(1), Fixed(7), Fixed(8), Fixed(8), Fixed(8), Fixed(8)];
    assert LAYOUT[1..][1..] == [Fixed(4), Fixed(1), Fixed(7), Fixed(8), Fixed(8), Fixed(8), Fixed(8)];
    assert LAYOUT[1..][1..][1..] == [Fixed(1), Fixed(7), Fixed(8), Fixed(8), Fixed(8), Fixed(8)];
    assert LAYOUT[1..][1..][1..][1..] == [Fixed(7), Fixed(8), Fixed(8), Fixed(8), Fixed(8)];
    assert LAYOUT[1..][1..][1..][1..][1..] == [Fixed(8), Fixed(8), Fixed(8), Fixed(8)];
    assert Sizes([Fixed(8), Fixed(8), Fixed(8), Fixed(8)]) == 32 by {
      assert [Fixed(8), Fixed(8), Fixed(8), Fixed(8)][1..] == [Fixed(8), Fixed(8), Fixed(8)];
      assert [Fixed(8), Fixed(8), Fixed(8)][1..] == [Fixed(8), Fixed(8)];
      assert [Fixed(8), Fixed(8)][1..] == [Fixed(8)];
      assert [Fixed(8)][1..] == [];
    }
  }

  lemma Peel(vs: seq<Value>)
    requires vs != [] && vs[0].Raw?
    ensures EncodeAll(vs) == vs[0].bytes + EncodeAll(vs[1..])
  {
  }

  lemma {:induction false} FieldAt(ts: seq<FieldType>, vs: seq<Value>, i: nat)
    requires AllWellTyped(ts, vs) && i < |ts| && forall j :: 0 <= j < |ts| ==> ts[j].Fixed?
    ensures var at := Sizes(ts[..i]);
            at + ts[i].size <= |EncodeAll(vs)| && EncodeAll(vs)[at..at + ts[i].size] == vs[i].bytes
    decreases i
  {
    hide Sizes, EncodeAll;
    assert WellTyped(ts[0], vs[0]) && WellTyped(ts[i], vs[i]);
    Peel(vs);
    if i == 0 {
      NoSizes(ts[..0]);
    } else {
      FieldAt(ts[1..], vs[1..], i - 1);
      SizesFront(ts, i);
      Behind(vs[0].bytes, EncodeAll(vs[1..]), Sizes(ts[1..][..i - 1]), ts[i].size);
    }
  }

  lemma Behind(x: seq<Byte>, rest: seq<Byte>, at: nat, n: nat)
    requires at + n <= |rest|
    ensures (x + rest)[|x| + at..|x| + at + n] == rest[at..at + n]
  {
  }

  lemma NoSizes(ts: seq<FieldType>)
    requires ts == []
    ensures Sizes(ts) == 0
  {
  }

  lemma SizesFront(ts: seq<FieldType>, i: nat)
    requires 0 < i <= |ts| && forall j :: 0 <= j < |ts| ==> ts[j].Fixed?
    ensures Sizes(ts[..i]) == ts[0].size + Sizes(ts[1..][..i - 1])
  {
    assert ts[..i][1..] == ts[1..][..i - 1];
  }

  /** Where each field lies, as the C compiler lays the struct out on a 64-bit machine. */
  lemma HeaderLayout(h: Header, padding: seq<Byte>)
    requires Wide(h) && |padding| == 7
    ensures var b := HeaderBytes(h, padding);
            && |b| == 56
            && b[..8] == ToLe(h.magic, 8) && b[8..12] == ToLe(h.clientPid, 4)
            && b[12..16] == ToLe(if h.id >= 0 then h.id else 0x1_0000_0000 + h.id, 4)
            && b[16] == (if h.pinned then 1 else 0) && b[17..24] == padding
            && b[24..32] == ToLe(h.kernels, 8) && b[32..40] == ToLe(h.handles, 8)
            && b[40..48] == ToLe(h.meta, 8) && b[48..56] == ToLe(h.raw, 8)
  {
    hide ToLe, Pow256, Wide, HeaderBytes;
    HeaderSize(h, padding);
    HeaderStart(h, padding);
    HeaderFlag(h, padding);
    HeaderEnd(h, padding);
  }

  lemma HeaderStart(h: Header, padding: seq<Byte>)
    requires Wide(h) && |padding| == 7 && |HeaderBytes(h, padding)| == 56
    ensures var b := HeaderBytes(h, padding);
            && b[..8] == ToLe(h.magic, 8) && b[8..12] == ToLe(h.clientPid, 4)
            && b[12..16] == ToLe(if h.id >= 0 then h.id else 0x1_0000_0000 + h.id, 4)
  {
    Offsets();
    WideId(h);
    FieldsAre(h, padding);
    hide ToLe, Pow256, Wide, Sizes, HeaderBytes, Fields;
    FieldLies(h, padding, 0);
    FieldLies(h, padding, 1);
    FieldLies(h, padding, 2);
  }

  lemma HeaderFlag(h: Header, padding: seq<Byte>)
    requires Wide(h) && |padding| == 7 && |HeaderBytes(h, padding)| == 56
    ensures var b := HeaderBytes(h, padding); b[16] == (if h.pinned then 1 else 0) && b[17..24] == padding
  {
    Offsets();
    WideId(h);
    FieldsAre(h, padding);
    hide ToLe, Pow256, Wide, Sizes, HeaderBytes, Fields;
    FieldLies(h, padding, 3);
    FieldLies(h, padding, 4);
    assert HeaderBytes(h, padding)[16..17][0] == HeaderBytes(h, padding)[16];
  }

  lemma HeaderEnd(h: Header, padding: seq<Byte>)
    requires Wide(h) && |padding| == 7 && |HeaderBytes(h, padding)| == 56
    ensures var b := HeaderBytes(h, padding);
            && b[24..32] == ToLe(h.kernels, 8) && b[32..40] == ToLe(h.handles, 8)
            && b[40..48] == ToLe(h.meta, 8) && b[48..56] == ToLe(h.raw, 8)
  {
    Offsets();
    WideId(h);
    FieldsAre(h, padding);
    hide ToLe, Pow256, Wide, Sizes, HeaderBytes, Fields;
    FieldLies(h, padding, 5);
    FieldLies(h, padding, 6);
    FieldLies(h, padding, 7);
    FieldLies(h, padding, 8);
  }

  lemma FieldsAre(h: Header, padding: seq<Byte>)
    requires Int32Fits(h.id)
    ensures var vs := Fields(h, padding);
            && |vs| == 9 && vs[0].bytes == ToLe(h.magic, 8) && vs[1].bytes == ToLe(h.clientPid, 4)
            && vs[2].bytes == ToLe(if h.id >= 0 then h.id else 0x1_0000_0000 + h.id, 4)
            && vs[3].bytes == [if h.pinned then 1 else 0] && vs[4].bytes == padding
            && vs[5].bytes == ToLe(h.kernels, 8) && vs[6].bytes == ToLe(h.handles, 8)
            && vs[7].bytes == ToLe(h.meta, 8) && vs[8].bytes == ToLe(h.raw, 8)
  {
    hide ToLe;
  }

  lemma FieldLies(h: Header, padding: seq<Byte>, i: nat)
    requires Wide(h) && |padding| == 7 && i < 9
    ensures var at, b := Sizes(LAYOUT[..i]), HeaderBytes(h, padding);
            |Fields(h, padding)| == 9 && at + LAYOUT[i].size <= |b| && b[at..at + LAYOUT[i].size] == Fields(h, padding)[i].bytes
  {
    FieldsWellTyped(h, padding);
    hide ToLe, Pow256, Wide, EncodeAll, AllWellTyped, Sizes, Fields;
    FieldAt(LAYOUT, Fields(h, padding), i);
  }

  lemma Offsets()
    ensures Sizes(LAYOUT[..0]) == 0 && Sizes(LAYOUT[..1]) == 8 && Sizes(LAYOUT[..2]) == 12 && Sizes(LAYOUT[..3]) == 16
    ensures Sizes(LAYOUT[..4]) == 17 && Sizes(LAYOUT[..5]) == 24 && Sizes(LAYOUT[..6]) == 32 && Sizes(LAYOUT[..7]) == 40
    ensures Sizes(LAYOUT[..8]) == 48
  {
    hide Sizes;
    SizesNext(0);
    SizesNext(1);
    SizesNext(2);
    SizesNext(3);
    SizesNext(4);
    SizesNext(5);
    SizesNext(6);
    SizesNext(7);
    NoSizes(LAYOUT[..0]);
  }

  lemma SizesNext(i: nat)
    requires i < |LAYOUT|
    ensures Sizes(LAYOUT[..i + 1]) == Sizes(LAYOUT[..i]) + LAYOUT[i].size
  {
    SizesAppend(LAYOUT[..i], LAYOUT[i]);
    assert LAYOUT[..i + 1] == LAYOUT[..i] + [LAYOUT[i]];
  }

  lemma {:induction false} SizesAppend(ts: seq<FieldType>, t: FieldType)
    requires t.Fixed? && forall i :: 0 <= i < |ts| ==> ts[i].Fixed?
    ensures Sizes(ts + [t]) == Sizes(ts) + t.size
  {
    if ts == [] {
      assert ([] + [t])[1..] == [];
    } else {
      SizesAppend(ts[1..], t);
      assert (ts + [t])[1..] == ts[1..] + [t];
    }
  }

  /** A snapshot starts with the letters of PHOSDETA, last first. */
  lemma MagicBytes()
    ensures ToLe(MAGIC, 8) == [0x41, 0x54, 0x45, 0x44, 0x53, 0x4F, 0x48, 0x50]
  {
    hide ToLe;
    LowByte(0x5048_4f53_4445_5441, 7);
    LowByte(0x50_484f_5344_4554, 6);
    LowByte(0x5048_4f53_4445, 5);
    LowByte(0x50_484f_5344, 4);
    LowByte(0x5048_4f53, 3);
    LowByte(0x50_484f, 2);
    LowByte(0x5048, 1);
    LowByte(0x50, 0);
    LowByte(0, 0);
    assert ToLe(0, 0) == [];
  }

  lemma LowByte(n: nat, k: nat)
    ensures ToLe(n, k + 1) == [n % 256] + ToLe(n / 256, k)
  {
  }

  // ---------------------------------------------------------------- the snapshot

  /** What a snapshot carries. */
  datatype Image = Image(clientPid: nat, id: int, pinned: bool,
                         kernels: seq<Byte>, handles: seq<Byte>, meta: seq<Byte>, raw: seq<Byte>)

  function HeaderFor(m: Image): Header {
    Header(MAGIC, m.clientPid, m.id, m.pinned, |m.kernels|, |m.handles|, |m.meta|, |m.raw|)
  }

  /** What goes over the request ring. */
  function Body(m: Image, padding: seq<Byte>): seq<Byte>
    requires Int32Fits(m.id)
  {
    HeaderBytes(HeaderFor(m), padding) + m.kernels + m.handles + m.meta
  }

  /** `read_snapshot` on the two overlaid buffers: None where one of its assertions fails. */
  function ParseSnapshot(receiver: seq<Byte>, sender: seq<Byte>): Option<Image> {
    match ParseHeader(receiver)
    case None => None
    case Some(h) =>
      if h.magic != MAGIC then None
      else if |receiver| < HEADER + h.kernels + h.handles + h.meta || |sender| < h.raw then None
      else
        var k := HEADER + h.kernels;
        var l := k + h.handles;
        Some(Image(h.clientPid, h.id, h.pinned, receiver[HEADER..k], receiver[k..l], receiver[l..l + h.meta], sender[..h.raw]))
  }

  lemma CutFour(a: seq<Byte>, b: seq<Byte>, c: seq<Byte>, d: seq<Byte>, rest: seq<Byte>)
    ensures var s := a + b + c + d + rest;
            && s[|a|..|a| + |b|] == b
            && s[|a| + |b|..|a| + |b| + |c|] == c
            && s[|a| + |b| + |c|..|a| + |b| + |c| + |d|] == d
  {
  }

  /** Main result: reading a snapshot back gives every section unchanged, for all sizes that fit,
      all padding bytes, and whatever the buffers hold behind the snapshot. */
  lemma SnapshotRoundTrip(m: Image, padding: seq<Byte>, behind: seq<Byte>, behindRaw: seq<Byte>)
    requires Wide(HeaderFor(m)) && |padding| == 7
    ensures ParseSnapshot(Body(m, padding) + behind, m.raw + behindRaw) == Some(m)
  {
    hide HeaderBytes, ParseHeader, Pow256;
    var h := HeaderFor(m);
    var header := HeaderBytes(h, padding);
    HeaderSize(h, padding);
    var all := Body(m, padding) + behind;
    assert all == header + (m.kernels + m.handles + m.meta + behind);
    HeaderRoundTrip(h, padding, m.kernels + m.handles + m.meta + behind);
    CutFour(header, m.kernels, m.handles, m.meta, behind);
    assert (m.raw + behindRaw)[..|m.raw|] == m.raw;
  }

  /** `as_buffer` is only allowed on an empty ring. */
  predicate Drained(r: Ring)
    reads r
  {
    r.head == r.tail
  }

  lemma Laid(before: seq<Byte>, done: seq<Byte>, piece: seq<Byte>)
    requires |done| + |piece| <= |before|
    ensures Splice(done + before[|done|..], |done|, piece) == done + piece + before[|done| + |piece|..]
  {
  }

  ghost predicate LaidOut(now: seq<Byte>, before: seq<Byte>, done: seq<Byte>) {
    |done| <= |before| && now == done + before[|done|..]
  }

  lemma NothingLaid(before: seq<Byte>)
    ensures LaidOut(before, before, [])
  {
  }

  /** One copy, right behind what is laid out already. */
  method CopySection(receiver: Ring, offset: nat, piece: seq<Byte>, ghost before: seq<Byte>, ghost done: seq<Byte>) returns (end: nat)
    requires LaidOut(receiver.buf[..], before, done) && offset == |done| && offset + |piece| <= receiver.buf.Length
    modifies receiver.buf
    ensures end == offset + |piece| && LaidOut(receiver.buf[..], before, done + piece)
  {
    Laid(before, done, piece);
    receiver.CopyIn(offset, piece);
    end := offset + |piece|;
  }

  /** The four copies of `dump_state`, each behind the one before. */
  method CopySections(receiver: Ring, header: seq<Byte>, kernels: seq<Byte>, handles: seq<Byte>, meta: seq<Byte>)
    requires |header| + |kernels| + |handles| + |meta| <= receiver.buf.Length
    modifies receiver.buf
    ensures LaidOut(receiver.buf[..], old(receiver.buf[..]), [] + header + kernels + handles + meta)
  {
    hide LaidOut;
    ghost var before := receiver.buf[..];
    NothingLaid(before);
    var offset := CopySection(receiver, 0, header, before, []);
    offset := CopySection(receiver, offset, kernels, before, [] + header);
    offset := CopySection(receiver, offset, handles, before, [] + header + kernels);
    offset := CopySection(receiver, offset, meta, before, [] + header + kernels + handles);
  }

  /** `dump_state`: panics if a ring is not empty or too small. Otherwise both rings carry the
      snapshot and are still valid empty rings, at whatever position their heads were. */
  method DumpState(receiver: Ring, sender: Ring, clientPid: nat, id: int, pinned: bool, kernels: seq<Byte>, handles: seq<Byte>,
                   meta: seq<Byte>, mem: Memory, xs: seq<Extent>, padding: seq<Byte>) returns (ok: bool)
    requires receiver.Valid() && sender.Valid() && receiver != sender && receiver.buf != sender.buf
    requires receiver.cap < Pow256(8) && sender.cap < Pow256(8)
    requires clientPid < Pow256(4) && Int32Fits(id) && |padding| == 7
    modifies receiver.buf, sender.buf
    ensures ok <==> Drained(receiver) && Drained(sender) && Total(xs) <= sender.cap
                    && HEADER + |kernels| + |handles| + |meta| <= receiver.cap
    ensures ok ==> receiver.Valid() && sender.Valid()
    ensures ok ==> var m := Image(clientPid, id, pinned, kernels, handles, meta, Contents(mem, xs));
                   ParseSnapshot(receiver.buf[..], sender.buf[..]) == Some(m)
    ensures ok ==> receiver.buf[56..56 + |kernels + handles + meta|] == kernels + handles + meta
    ensures ok ==> sender.buf[..Total(xs)] == Contents(mem, xs)
  {
    hide Pow256, HeaderBytes, Contents, Total, ParseSnapshot;
    if !Drained(receiver) { return false; }
    if !Drained(sender) { return false; }
    var total;
    ok, total := DumpToSlice(sender.buf, mem, xs);
    if !ok { return; }
    if receiver.cap < HEADER + |kernels| + |handles| + |meta| { return false; }
    var h := Header(MAGIC, clientPid, id, pinned, |kernels|, |handles|, |meta|, total);
    assert MAGIC < Pow256(8) by { MagicFits(); }
    HeaderSize(h, padding);
    CopySections(receiver, HeaderBytes(h, padding), kernels, handles, meta);
    ghost var m := Image(clientPid, id, pinned, kernels, handles, meta, Contents(mem, xs));
    SnapshotRoundTrip(m, padding, receiver.buf[HEADER + |kernels| + |handles| + |meta|..], sender.buf[total..]);
    assert [] + HeaderBytes(h, padding) == HeaderBytes(h, padding);
    assert Body(m, padding) + receiver.buf[HEADER + |kernels| + |handles| + |meta|..] == receiver.buf[..];
    assert m.raw + sender.buf[total..] == sender.buf[..];
  }

  lemma MagicFits()
    ensures MAGIC < Pow256(8)
  {
  }

  /** `read_snapshot`. */
  method ReadSnapshot(receiver: Ring, sender: Ring) returns (r: Option<Image>)
    requires receiver.Valid() && sender.Valid()
    ensures r == if Drained(receiver) && Drained(sender) then ParseSnapshot(receiver.buf[..], sender.buf[..]) else None
  {
    hide ParseHeader;
    if !Drained(receiver) { return None; }
    var h := ParseHeader(receiver.buf[..]);
    if h.None? || h.value.magic != MAGIC { return None; }
    if !Drained(sender) { return None; }
    if receiver.cap < HEADER + h.value.kernels + h.value.handles + h.value.meta { return None; }
    if sender.cap < h.value.raw { return None; }
    var offset := HEADER;
    var kernels := receiver.buf[offset..offset + h.value.kernels];
    offset := offset + h.value.kernels;
    var handles := receiver.buf[offset..offset + h.value.handles];
    offset := offset + h.value.handles;
    var meta := receiver.buf[offset..offset + h.value.meta];
    r := Some(Image(h.value.clientPid, h.value.id, h.value.pinned, kernels, handles, meta, sender.buf[..h.value.raw]));
  }
}
