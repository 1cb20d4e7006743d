/** Kernel parameters: reading their layout from a cubin's info section, and packing the arguments of
    a launch into one buffer by that layout. Sums of offset and size are 16-bit and wrap. */
module KernelParams {
  import opened Bytes
  import opened Options
  import opened Wire

  const U16: nat := 0x1_0000

  datatype Param = Param(index: nat, ordinal: nat, offset: nat, rest: nat) {
    function Size(): nat { rest / 0x4_0000 }                      // the top 14 of 32 bits
    predicate IsCbank() { rest / 0x2_0000 % 2 == 0 }
    function End(): nat { offset + Size() }
    function Wrapped(): nat { End() % U16 }                       // what `offset + size()` computes
  }

  predicate IsParam(p: Param) { p.ordinal < U16 && p.offset < U16 && p.rest < 0x1_0000_0000 }

  const INFO: nat := 12

  function ReadParam(b: seq<Byte>): Param
    requires |b| == INFO
  {
    Param(FromLe(b[..4]), FromLe(b[4..6]), FromLe(b[6..8]), FromLe(b[8..]))
  }

  lemma ReadParamFits(b: seq<Byte>)
    requires |b| == INFO
    ensures IsParam(ReadParam(b))
  {
    LeOnto(b[4..6]);
    LeOnto(b[6..8]);
    LeOnto(b[8..]);
    Powers();
    hide ToLe, FromLe, Pow256;
  }

  lemma Powers()
    ensures Pow256(2) == U16 && Pow256(4) == 0x1_0000_0000
  {
  }

  // ---------------------------------------------------------------- scanning the section

  /** What the scan has seen: the declared size, in which bank, and the parameter records. */
  datatype Seen = Seen(bytes: nat, cbank: bool, params: seq<Param>)

  const NOTHING: Seen := Seen(0, false, [])

  const NVAL: nat := 1
  const BVAL: nat := 2
  const HVAL: nat := 3
  const SVAL: nat := 4
  const KPARAM_INFO: nat := 0x17
  const SMEM_PARAM_SIZE: nat := 0x18
  const CBANK_PARAM_SIZE: nat := 0x19

  function Val16(b: seq<Byte>, i: nat): nat
    requires i + 4 <= |b|
  {
    var lo: nat, hi: nat := b[i + 2], b[i + 3];
    lo + 256 * hi
  }

  /** One attribute at `i`: the position behind it and what is seen then; None is a panic. */
  function ScanOne(b: seq<Byte>, i: nat, seen: Seen): (r: Option<(nat, Seen)>)
    requires i < |b|
    ensures r.Some? ==> r.value.0 >= i + 4
  {
    if i + 4 > |b| then None
    else
      var format, attr, val := b[i], b[i + 1], Val16(b, i);
      if format == NVAL then if val == 0 then Some((i + 4, seen)) else None
      else if format == BVAL then if b[i + 3] == 0 then Some((i + 4, seen)) else None
      else if format == HVAL then
        Some((i + 4, if attr == SMEM_PARAM_SIZE then seen.(bytes := val, cbank := false)
                     else if attr == CBANK_PARAM_SIZE then seen.(bytes := val, cbank := true) else seen))
      else if format == SVAL then
        if attr != KPARAM_INFO then Some((i + 4 + val, seen))
        else if val != INFO || i + 4 + val > |b| then None
        else Some((i + 4 + val, seen.(params := seen.params + [ReadParam(b[i + 4..i + 16])])))
      else None
  }

  /** The rest of the scan; a block reaching past the end of the section simply ends it. */
  function ScanFrom(b: seq<Byte>, i: nat, seen: Seen): Option<Seen>
    decreases |b| - i
  {
    if i >= |b| then Some(seen)
    else match ScanOne(b, i, seen)
      case None => None
      case Some((j, next)) => ScanFrom(b, j, next)
  }

  ghost predicate SeenOk(seen: Seen) { seen.bytes < U16 && forall p :: p in seen.params ==> IsParam(p) }

  lemma ScanOneOk(b: seq<Byte>, i: nat, seen: Seen)
    requires i < |b| && SeenOk(seen)
    ensures ScanOne(b, i, seen).Some? ==> SeenOk(ScanOne(b, i, seen).value.1)
  {
    if i + 16 <= |b| { ReadParamFits(b[i + 4..i + 16]); }
    hide FromLe, IsParam;
  }

  lemma {:induction false} ScanOk(b: seq<Byte>, i: nat, seen: Seen)
    requires SeenOk(seen)
    ensures ScanFrom(b, i, seen).Some? ==> SeenOk(ScanFrom(b, i, seen).value)
    decreases |b| - i
  {
    hide SeenOk, ScanOne;
    if i < |b| && ScanOne(b, i, seen).Some? {
      ScanOneOk(b, i, seen);
      ScanOk(b, ScanOne(b, i, seen).value.0, ScanOne(b, i, seen).value.1);
    }
  }

  // ---------------------------------------------------------------- sorting and checking

  function Insert(ps: seq<Param>, p: Param): (r: seq<Param>)
    ensures multiset(r) == multiset(ps) + multiset{p}
  {
    if ps == [] then [p]
    else
      var front, last := ps[..|ps| - 1], ps[|ps| - 1];
      assert ps == front + [last];
      if last.ordinal <= p.ordinal then ps + [p] else Insert(front, p) + [last]
  }

  /** The records by ordinal. */
  function Sort(ps: seq<Param>): (r: seq<Param>)
    ensures multiset(r) == multiset(ps)
  {
    if ps == [] then []
    else
      assert ps == ps[..|ps| - 1] + [ps[|ps| - 1]];
      Insert(Sort(ps[..|ps| - 1]), ps[|ps| - 1])
  }

  predicate Check(ps: seq<Param>, i: nat, bytes: nat, cbank: bool)
    requires i < |ps|
  {
    && i == ps[i].ordinal && cbank == ps[i].IsCbank()
    && if i + 1 < |ps| then ps[i].Wrapped() <= ps[i + 1].offset else ps[i].Wrapped() == bytes
  }

  predicate Checks(ps: seq<Param>, bytes: nat, cbank: bool) { forall i :: 0 <= i < |ps| ==> Check(ps, i, bytes, cbank) }

  /** What `parse_params` returns; None where it panics. */
  function Parsed(b: seq<Byte>): Option<seq<Param>> {
    match ScanFrom(b, 0, NOTHING)
    case None => None
    case Some(seen) => if Checks(Sort(seen.params), seen.bytes, seen.cbank) then Some(Sort(seen.params)) else None
  }

  method ParseParams(nvinfo: seq<Byte>) returns (r: Option<seq<Param>>)
    ensures r == Parsed(nvinfo)
  {
    hide Check, ScanOne;
    var i, seen := 0, NOTHING;
    while i < |nvinfo|
      invariant ScanFrom(nvinfo, i, seen) == ScanFrom(nvinfo, 0, NOTHING)
      decreases |nvinfo| - i
    {
      var ok;
      ok, i, seen := ParseBlock(nvinfo, i, seen);
      if !ok { return None; }
    }
    var params := Sort(seen.params);
    for k := 0 to |params|
      invariant forall j :: 0 <= j < k ==> Check(params, j, seen.bytes, seen.cbank)
    {
      if !Check(params, k, seen.bytes, seen.cbank) { return None; }
    }
    r := Some(params);
  }

  /** One turn of the loop: a format, an attribute and two value bytes, then a block if announced. */
  method ParseBlock(nvinfo: seq<Byte>, start: nat, seen: Seen) returns (ok: bool, i: nat, now: Seen)
    requires start < |nvinfo|
    ensures ok <==> ScanOne(nvinfo, start, seen).Some?
    ensures ok ==> ScanOne(nvinfo, start, seen) == Some((i, now))
  {
    hide ReadParam;
    ok, i, now := false, start, seen;
    if i + 4 > |nvinfo| { return; }
    var format, attr := nvinfo[i], nvinfo[i + 1];
    var b0: nat, b1: nat := nvinfo[i + 2], nvinfo[i + 3];
    i := i + 4;
    if format == NVAL {
      if b0 != 0 || b1 != 0 { return; }
    } else if format == BVAL {
      if b1 != 0 { return; }
    } else if format == HVAL {
      if attr == SMEM_PARAM_SIZE { now := seen.(bytes := b0 + 256 * b1, cbank := false); }
      else if attr == CBANK_PARAM_SIZE { now := seen.(bytes := b0 + 256 * b1, cbank := true); }
    } else if format == SVAL {
      var len := b0 + 256 * b1;
      if attr == KPARAM_INFO {
        if len != INFO || i + len > |nvinfo| { return; }
        now := seen.(params := seen.params + [ReadParam(nvinfo[i..i + INFO])]);
      }
      i := i + len;
    } else {
      return;
    }
    ok := true;
  }

  // ---------------------------------------------------------------- what a parsed layout is

  /** Parameters 0 to n-1 in order, on increasing disjoint intervals, the last ending at `bytes`. */
  ghost predicate Layout(ps: seq<Param>, bytes: nat) {
    && (forall i :: 0 <= i < |ps| ==> ps[i].ordinal == i)
    && (forall i, j :: 0 <= i < j < |ps| ==> ps[i].End() <= ps[j].offset)
    && (ps != [] ==> ps[|ps| - 1].End() == bytes)
  }

  predicate Overflows(ps: seq<Param>) { exists i :: 0 <= i < |ps| && ps[i].End() >= U16 }

  lemma {:induction false} Increasing(ps: seq<Param>, i: nat, j: nat)
    requires forall k :: 0 <= k < |ps| - 1 ==> ps[k].End() <= ps[k + 1].offset
    requires i < j < |ps|
    ensures ps[i].End() <= ps[j].offset
  {
    if i + 1 < j { Increasing(ps, i, j - 1); }
  }

  /** The checks, and the 16-bit bounds of the fields, as one chain. */
  ghost predicate Chained(ps: seq<Param>, bytes: nat) {
    && bytes < U16
    && (forall k :: 0 <= k < |ps| ==> ps[k].ordinal == k && ps[k].offset < U16)
    && (forall k :: 0 <= k < |ps| - 1 ==> ps[k].Wrapped() <= ps[k + 1].offset)
    && (ps != [] ==> ps[|ps| - 1].Wrapped() == bytes)
  }

  lemma ChainedLayout(ps: seq<Param>, bytes: nat)
    requires Chained(ps, bytes) && !Overflows(ps)
    ensures Layout(ps, bytes)
  {
    forall k | 0 <= k < |ps| ensures ps[k].Wrapped() == ps[k].End() {
      assert ps[k].End() < U16;
    }
    forall i, j | 0 <= i < j < |ps| ensures ps[i].End() <= ps[j].offset { Increasing(ps, i, j); }
  }

  lemma LayoutFits(ps: seq<Param>, bytes: nat)
    requires Chained(ps, bytes) && Layout(ps, bytes)
    ensures !Overflows(ps)
  {
    forall k | 0 <= k < |ps| ensures ps[k].End() < U16 {
      if k + 1 < |ps| { assert ps[k].End() <= ps[k + 1].offset < U16; }
    }
  }

  lemma CheckedIsChained(ps: seq<Param>, bytes: nat, cbank: bool)
    requires Checks(ps, bytes, cbank) && bytes < U16 && forall p :: p in ps ==> IsParam(p)
    ensures Chained(ps, bytes) && forall k :: 0 <= k < |ps| ==> ps[k].IsCbank() == cbank
  {
    assert forall k :: 0 <= k < |ps| ==> Check(ps, k, bytes, cbank) && ps[k] in ps;
  }

  /** Main result: whatever section is accepted, the parameters are exactly its records, in ordinal
      order, all in the declared bank, and they form a proper layout exactly if no offset plus size
      overflows 16 bits. */
  lemma ParsedLayout(b: seq<Byte>)
    requires Parsed(b).Some?
    ensures var ps := Parsed(b).value;
            ScanFrom(b, 0, NOTHING).Some? &&
            var seen := ScanFrom(b, 0, NOTHING).value;
            && multiset(ps) == multiset(seen.params)
            && (forall i :: 0 <= i < |ps| ==> ps[i].ordinal == i && ps[i].IsCbank() == seen.cbank)
            && (Layout(ps, seen.bytes) <==> !Overflows(ps))
  {
    hide Layout, Overflows, IsParam, Check, ScanFrom;
    ScanOk(b, 0, NOTHING);
    var seen := ScanFrom(b, 0, NOTHING).value;
    var ps := Parsed(b).value;
    forall p | p in ps ensures IsParam(p) {
      assert p in multiset(ps);
    }
    CheckedIsChained(ps, seen.bytes, seen.cbank);
    if !Overflows(ps) { ChainedLayout(ps, seen.bytes); }
    if Layout(ps, seen.bytes) { LayoutFits(ps, seen.bytes); }
  }

  /** A declared size of 4, and one record of 8 bytes at offset 0xFFFC. */
  const WRAPPING_RECORD: seq<Byte> := [0, 0, 0, 0, 0, 0, 0xFC, 0xFF, 0, 0, 0x20, 0]
  const WRAPPING_SECTION: seq<Byte> := [HVAL, CBANK_PARAM_SIZE, 4, 0, SVAL, KPARAM_INFO, 12, 0] + WRAPPING_RECORD

  lemma Le2(b: seq<Byte>)
    requires |b| == 2
    ensures FromLe(b) == b[0] as int + 256 * b[1] as int
  {
    assert b[1..][1..] == [] && FromLe(b[1..]) == b[1] as int + 256 * FromLe([]);
  }

  lemma Le4(b: seq<Byte>)
    requires |b| == 4
    ensures FromLe(b) == b[0] as int + 256 * (b[1] as int + 256 * (b[2] as int + 256 * b[3] as int))
  {
    Le2(b[2..]);
    assert b[1..][1..] == b[2..];
  }

  lemma ReadsWrapping()
    ensures ReadParam(WRAPPING_RECORD) == Param(0, 0, 0xFFFC, 8 * 0x4_0000)
  {
    var b := WRAPPING_RECORD;
    Le4(b[..4]);
    Le2(b[4..6]);
    Le2(b[6..8]);
    Le4(b[8..]);
    hide FromLe;
  }

  /** The layout is not proper for every accepted section: one record whose end wraps to the declared
      size is enough. */
  lemma WrappingSectionIsAccepted()
    ensures var p := Param(0, 0, 0xFFFC, 8 * 0x4_0000);
            Parsed(WRAPPING_SECTION) == Some([p]) && ScanFrom(WRAPPING_SECTION, 0, NOTHING) == Some(Seen(4, true, [p])) && !Layout([p], 4)
  {
    ReadsWrapping();
    hide ReadParam;
    var p := Param(0, 0, 0xFFFC, 8 * 0x4_0000);
    var sized := Seen(4, true, []);
    assert ScanOne(WRAPPING_SECTION, 0, NOTHING) == Some((4, sized));
    assert WRAPPING_SECTION[4 + 4..4 + 16] == WRAPPING_RECORD;
    assert Val16(WRAPPING_SECTION, 4) == INFO && sized.params + [p] == [p];
    assert ScanOne(WRAPPING_SECTION, 4, sized) == Some((20, Seen(4, true, [p])));
    assert ScanFrom(WRAPPING_SECTION, 4, sized) == ScanFrom(WRAPPING_SECTION, 20, Seen(4, true, [p]));
    assert [p][..0] == [];
    assert Sort([p]) == Insert(Sort([]), p) == [p];
    assert p.Size() == 8 && p.End() == 0x1_0004 && p.Wrapped() == 4;
  }

  // ---------------------------------------------------------------- packing arguments

  method CopyInto(result: array<Byte>, at: nat, piece: seq<Byte>)
    requires at + |piece| <= result.Length
    modifies result
    ensures forall k :: 0 <= k < result.Length ==>
              result[k] == if at <= k < at + |piece| then piece[k - at] else old(result[k])
  {
    for n := 0 to |piece|
      invariant forall k :: 0 <= k < result.Length ==>
                  result[k] == if at <= k < at + n then piece[k - at] else old(result[k])
    {
      result[at + n] := piece[n];
    }
  }

  /** Every argument up to `n` is in its interval. */
  ghost predicate Placed(buf: seq<Byte>, info: seq<Param>, args: seq<seq<Byte>>, n: nat)
    requires n <= |info| == |args|
  {
    forall j :: 0 <= j < n ==>
      info[j].End() <= |buf| && info[j].Size() <= |args[j]| && buf[info[j].offset..info[j].End()] == args[j][..info[j].Size()]
  }

  /** Outside the intervals up to `n` the buffer is zero. */
  ghost predicate ZeroElsewhere(buf: seq<Byte>, info: seq<Param>, n: nat)
    requires n <= |info|
  {
    forall k :: 0 <= k < |buf| && (forall j :: 0 <= j < n ==> !(info[j].offset <= k < info[j].End())) ==> buf[k] == 0
  }

  lemma PlacedNext(buf: seq<Byte>, buf': seq<Byte>, info: seq<Param>, args: seq<seq<Byte>>, n: nat)
    requires n < |info| == |args| && Layout(info, |buf|) && |buf'| == |buf| && info[n].Size() <= |args[n]|
    requires Placed(buf, info, args, n) && ZeroElsewhere(buf, info, n)
    requires forall k :: 0 <= k < |buf| ==>
               buf'[k] == if info[n].offset <= k < info[n].End() then args[n][k - info[n].offset] else buf[k]
    ensures Placed(buf', info, args, n + 1) && ZeroElsewhere(buf', info, n + 1)
  {
    EndsInside(info, |buf|, n);
    forall j | 0 <= j < n + 1
      ensures info[j].End() <= |buf'| && buf'[info[j].offset..info[j].End()] == args[j][..info[j].Size()]
    {
      if j < n {
        assert buf'[info[j].offset..info[j].End()] == buf[info[j].offset..info[j].End()];
      }
    }
  }

  /** What `parse_params` guarantees of the records it returns, for the declared size. */
  lemma AcceptedIsChained(b: seq<Byte>)
    requires Parsed(b).Some?
    ensures ScanFrom(b, 0, NOTHING).Some? && Chained(Parsed(b).value, ScanFrom(b, 0, NOTHING).value.bytes)
  {
    hide IsParam, Check, ScanFrom;
    ScanOk(b, 0, NOTHING);
    var seen := ScanFrom(b, 0, NOTHING).value;
    var ps := Parsed(b).value;
    forall p | p in ps ensures IsParam(p) {
      assert p in multiset(ps);
    }
    CheckedIsChained(ps, seen.bytes, seen.cbank);
  }

  /** `pack_kernel_args` on the records of an accepted section: `args[i]` is the memory behind the i-th
      argument pointer. Every copy stays in the buffer exactly if no offset plus size overflows 16
      bits; then every argument reads back from its interval after all copies, and gaps stay zero.
      None is the first copy that would write past the buffer. */
  method PackKernelArgs(info: seq<Param>, ghost bytes: nat, args: seq<seq<Byte>>) returns (r: Option<array<Byte>>)
    requires Chained(info, bytes)
    requires |args| == |info| && forall i :: 0 <= i < |info| ==> info[i].Size() <= |args[i]|
    ensures r.Some? <==> !Overflows(info)
    ensures r.Some? ==> r.value.Length == (if info == [] then 0 else bytes) && Layout(info, bytes)
    ensures r.Some? ==> Placed(r.value[..], info, args, |info|) && ZeroElsewhere(r.value[..], info, |info|)
  {
    hide Placed, ZeroElsewhere;
    if !Overflows(info) { ChainedLayout(info, bytes); }
    if info == [] {
      var none := new Byte[0];
      NothingPlaced(none[..], info, args);
      return Some(none);
    }
    var last := info[|info| - 1];
    var result := new Byte[last.Wrapped()](_ => 0);
    NothingPlaced(result[..], info, args);
    for i := 0 to |info|
      invariant fresh(result) && result.Length == bytes
      invariant forall j :: 0 <= j < i ==> info[j].End() <= bytes
      invariant !Overflows(info) ==> Placed(result[..], info, args, i) && ZeroElsewhere(result[..], info, i)
    {
      if info[i].End() > result.Length {
        if !Overflows(info) { EndsInside(info, bytes, i); }
        return None;
      }
      ghost var before := result[..];
      CopyInto(result, info[i].offset, args[i][..info[i].Size()]);
      if !Overflows(info) { PlacedNext(before, result[..], info, args, i); }
    }
    assert forall j :: 0 <= j < |info| ==> info[j].End() < U16;
    r := Some(result);
  }

  lemma NothingPlaced(buf: seq<Byte>, info: seq<Param>, args: seq<seq<Byte>>)
    requires |info| == |args| && forall k :: 0 <= k < |buf| ==> buf[k] == 0
    ensures Placed(buf, info, args, 0) && ZeroElsewhere(buf, info, 0)
  {
  }

  lemma EndsInside(info: seq<Param>, bytes: nat, i: nat)
    requires Layout(info, bytes) && i < |info|
    ensures info[i].End() <= bytes
    ensures forall j :: 0 <= j < i ==> info[j].End() <= info[i].offset
  {
  }
}
