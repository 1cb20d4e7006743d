/** Copying device memory to and from a flat buffer: segments concatenated by a running offset, and
    split again on the way back. Memory is physical: a segment's address leads to the memory mapped
    there, and two mappings may show the same memory. */
module DeviceCopy {
  import opened Bytes

  /** The bytes of every physical allocation, by allocation and offset. */
  type Memory = (nat, nat) -> Byte

  /** What the mapping at a segment's address shows: `size` bytes of allocation `phys`, from offset 0. */
  datatype Extent = Extent(phys: nat, size: nat) {
    predicate Has(f: nat, o: nat) { f == phys && o < size }
  }

  function ReadAt(mem: Memory, x: Extent): (r: seq<Byte>)
    ensures |r| == x.size
  {
    seq(x.size, i requires 0 <= i < x.size => mem(x.phys, i))
  }

  function WriteAt(mem: Memory, x: Extent, bytes: seq<Byte>): Memory
    requires |bytes| == x.size
  {
    (f: nat, o: nat) => if x.Has(f, o) then bytes[o] else mem(f, o)
  }

  function Total(xs: seq<Extent>): nat {
    if xs == [] then 0 else Total(xs[..|xs| - 1]) + xs[|xs| - 1].size
  }

  /** The contents of all segments, one after the other. */
  function Contents(mem: Memory, xs: seq<Extent>): (r: seq<Byte>)
    ensures |r| == Total(xs)
  {
    if xs == [] then [] else Contents(mem, xs[..|xs| - 1]) + ReadAt(mem, xs[|xs| - 1])
  }

  lemma TotalNext(xs: seq<Extent>, i: nat)
    requires i < |xs|
    ensures Total(xs[..i + 1]) == Total(xs[..i]) + xs[i].size
    ensures forall mem :: Contents(mem, xs[..i + 1]) == Contents(mem, xs[..i]) + ReadAt(mem, xs[i])
  {
    assert xs[..i + 1][..i] == xs[..i];
  }

  lemma {:induction false} TotalPrefix(xs: seq<Extent>, i: nat)
    requires i <= |xs|
    ensures Total(xs[..i]) <= Total(xs)
    decreases |xs| - i
  {
    if i < |xs| {
      TotalNext(xs, i);
      TotalPrefix(xs, i + 1);
    } else {
      assert xs[..i] == xs;
    }
  }

  lemma Fits(xs: seq<Extent>, k: nat)
    requires k < |xs|
    ensures Total(xs[..k]) + xs[k].size <= Total(xs)
  {
    TotalNext(xs, k);
    TotalPrefix(xs, k + 1);
  }

  /** Memory after the loop of `restore_from_slice` has copied the first `n` segments back. */
  ghost function Restored(mem: Memory, xs: seq<Extent>, raw: seq<Byte>, n: nat): Memory
    requires n <= |xs| && Total(xs) <= |raw|
  {
    if n == 0 then mem
    else
      Fits(xs, n - 1);
      var offset := Total(xs[..n - 1]);
      WriteAt(Restored(mem, xs, raw, n - 1), xs[n - 1], raw[offset..offset + xs[n - 1].size])
  }

  /** `dump_to_slice`; not ok is the assertion that the buffer is large enough. */
  method DumpToSlice(raw: array<Byte>, mem: Memory, xs: seq<Extent>) returns (ok: bool, total: nat)
    modifies raw
    ensures total == Total(xs) && (ok <==> total <= raw.Length)
    ensures raw[..] == if ok then Contents(mem, xs) + old(raw[..])[total..] else old(raw[..])
  {
    total := SumSizes(xs);
    ok := raw.Length >= total;
    if !ok { return; }
    var offset := 0;
    ghost var before := raw[..];
    for i := 0 to |xs|
      invariant offset == Total(xs[..i]) <= |before| == raw.Length
      invariant raw[..] == Contents(mem, xs[..i]) + before[offset..]
    {
      hide Total, Contents, ReadAt;
      Fits(xs, i);
      TotalNext(xs, i);
      CopyToHost(raw, offset, mem, xs[i]);
      Joined(Contents(mem, xs[..i]), before, ReadAt(mem, xs[i]));
      offset := offset + xs[i].size;
    }
    assert xs[..|xs|] == xs;
  }

  lemma Joined(done: seq<Byte>, before: seq<Byte>, piece: seq<Byte>)
    requires |done| + |piece| <= |before|
    ensures var now := done + before[|done|..];
            now[..|done|] + piece + now[|done| + |piece|..] == done + piece + before[|done| + |piece|..]
  {
  }

  method SumSizes(xs: seq<Extent>) returns (total: nat)
    ensures total == Total(xs)
  {
    total := 0;
    for i := 0 to |xs|
      invariant total == Total(xs[..i])
    {
      TotalNext(xs, i);
      total := total + xs[i].size;
    }
    assert xs[..|xs|] == xs;
  }

  method CopyToHost(raw: array<Byte>, offset: nat, mem: Memory, x: Extent)
    requires offset + x.size <= raw.Length
    modifies raw
    ensures raw[..] == old(raw[..])[..offset] + ReadAt(mem, x) + old(raw[..])[offset + x.size..]
  {
    for k := 0 to x.size
      invariant forall j :: 0 <= j < raw.Length ==>
                  raw[j] == if offset <= j < offset + k then mem(x.phys, j - offset) else old(raw[j])
    {
      raw[offset + k] := mem(x.phys, k);
    }
  }

  /** `restore_from_slice`, without decoding the metadata. */
  method RestoreFromSlice(raw: seq<Byte>, mem: Memory, xs: seq<Extent>) returns (ok: bool, mem': Memory)
    ensures ok <==> Total(xs) <= |raw|
    ensures ok ==> mem' == Restored(mem, xs, raw, |xs|)
  {
    mem' := mem;
    var total := SumSizes(xs);
    ok := |raw| >= total;
    if !ok { return; }
    var offset := 0;
    for i := 0 to |xs|
      invariant offset == Total(xs[..i])
      invariant mem' == Restored(mem, xs, raw, i)
    {
      Fits(xs, i);
      TotalNext(xs, i);
      mem' := WriteAt(mem', xs[i], raw[offset..offset + xs[i].size]);
      offset := offset + xs[i].size;
    }
  }

  // ---------------------------------------------------------------- what comes back

  /** What the copy of segment `n` does to one byte. */
  lemma RestoredNext(mem: Memory, xs: seq<Extent>, raw: seq<Byte>, n: nat, f: nat, o: nat)
    requires n < |xs| && Total(xs) <= |raw|
    ensures Total(xs[..n]) + xs[n].size <= |raw|
    ensures Restored(mem, xs, raw, n + 1)(f, o) ==
            if xs[n].Has(f, o) then raw[Total(xs[..n]) + o] else Restored(mem, xs, raw, n)(f, o)
  {
    Fits(xs, n);
  }

  lemma {:induction false} ContentsAt(mem: Memory, xs: seq<Extent>, k: nat, o: nat)
    requires k < |xs| && o < xs[k].size
    ensures Total(xs[..k]) + xs[k].size <= Total(xs)
    ensures Contents(mem, xs)[Total(xs[..k]) + o] == mem(xs[k].phys, o)
  {
    hide Total, Contents, ReadAt;
    var front, last := xs[..|xs| - 1], xs[|xs| - 1];
    Fits(xs, k);
    LastContents(mem, xs);
    if k < |front| {
      assert front[..k] == xs[..k];
      Fits(front, k);
      ContentsAt(mem, front, k, o);
    } else {
      ReadByte(mem, last, o);
    }
  }

  lemma LastContents(mem: Memory, xs: seq<Extent>)
    requires xs != []
    ensures Contents(mem, xs) == Contents(mem, xs[..|xs| - 1]) + ReadAt(mem, xs[|xs| - 1])
    ensures Total(xs) == Total(xs[..|xs| - 1]) + xs[|xs| - 1].size
  {
  }

  lemma ReadByte(mem: Memory, x: Extent, o: nat)
    requires o < x.size
    ensures ReadAt(mem, x)[o] == mem(x.phys, o)
  {
  }

  /** The same segments on two devices. */
  ghost predicate SameSizes(from: seq<Extent>, to: seq<Extent>) {
    |from| == |to| && forall i :: 0 <= i < |from| ==> from[i].size == to[i].size
  }

  lemma {:induction false} SameTotal(from: seq<Extent>, to: seq<Extent>)
    requires SameSizes(from, to)
    ensures Total(from) == Total(to)
  {
    if from != [] {
      SameTotal(from[..|from| - 1], to[..|to| - 1]);
    }
  }

  lemma PrefixTotal(from: seq<Extent>, to: seq<Extent>, k: nat)
    requires SameSizes(from, to) && k <= |from|
    ensures Total(from[..k]) == Total(to[..k])
  {
    SameTotal(from[..k], to[..k]);
  }

  /** Segments that share memory on the second device shared it on the first. */
  ghost predicate Coherent(from: seq<Extent>, to: seq<Extent>)
    requires |from| == |to|
  {
    forall i, j :: 0 <= i < |from| && 0 <= j < |from| && to[i].phys == to[j].phys ==> from[i].phys == from[j].phys
  }

  /** Dump on the first device, restore on the second. */
  ghost function Moved(mem: Memory, from: seq<Extent>, other: Memory, to: seq<Extent>, rest: seq<Byte>): Memory
    requires SameSizes(from, to)
  {
    SameTotal(from, to);
    Restored(other, to, Contents(mem, from) + rest, |to|)
  }

  /** Every byte of every segment reads as before. */
  ghost predicate Arrives(mem: Memory, from: seq<Extent>, mem': Memory, to: seq<Extent>)
    requires |from| == |to|
  {
    forall i, o :: 0 <= i < |from| && 0 <= o < from[i].size ==> mem'(to[i].phys, o) == mem(from[i].phys, o)
  }

  /** What the first `n` copies leave at a byte: the last segment that has it decides. */
  lemma {:induction false} CopiedBack(mem: Memory, from: seq<Extent>, other: Memory, to: seq<Extent>, rest: seq<Byte>, n: nat, f: nat, o: nat)
    returns (k: nat)
    requires SameSizes(from, to) && n <= |to| && Total(to) <= |Contents(mem, from) + rest|
    ensures k <= n
    ensures k == n ==> (forall i :: 0 <= i < n ==> !to[i].Has(f, o)) && Restored(other, to, Contents(mem, from) + rest, n)(f, o) == other(f, o)
    ensures k < n ==> to[k].Has(f, o) && Restored(other, to, Contents(mem, from) + rest, n)(f, o) == mem(from[k].phys, o)
  {
    hide Restored, Contents;
    k := 0;
    if n == 0 {
      StartsWith(other, to, Contents(mem, from) + rest);
    } else {
      RestoredNext(other, to, Contents(mem, from) + rest, n - 1, f, o);
      if to[n - 1].Has(f, o) {
        k := n - 1;
        PrefixTotal(from, to, k);
        ContentsAt(mem, from, k, o);
      } else {
        k := CopiedBack(mem, from, other, to, rest, n - 1, f, o);
        if k == n - 1 { k := n; }
      }
    }
  }

  lemma StartsWith(mem: Memory, xs: seq<Extent>, raw: seq<Byte>)
    requires Total(xs) <= |raw|
    ensures Restored(mem, xs, raw, 0) == mem
  {
  }

  lemma CoherentArrives(mem: Memory, from: seq<Extent>, other: Memory, to: seq<Extent>, rest: seq<Byte>)
    requires SameSizes(from, to) && Coherent(from, to)
    ensures Arrives(mem, from, Moved(mem, from, other, to, rest), to)
  {
    hide Restored, Contents;
    SameTotal(from, to);
    forall i, o | 0 <= i < |from| && 0 <= o < from[i].size
      ensures Moved(mem, from, other, to, rest)(to[i].phys, o) == mem(from[i].phys, o)
    {
      var k := CopiedBack(mem, from, other, to, rest, |to|, to[i].phys, o);
      assert to[i].Has(to[i].phys, o);
    }
  }

  /** Two segments that are made to share memory cannot both arrive: some contents are lost. */
  lemma IncoherentLoses(from: seq<Extent>, other: Memory, to: seq<Extent>, rest: seq<Byte>, i: nat, j: nat) returns (mem: Memory)
    requires SameSizes(from, to) && i < |from| && j < |from| && from[i].size > 0 && from[j].size > 0
    requires to[i].phys == to[j].phys && from[i].phys != from[j].phys
    ensures !Arrives(mem, from, Moved(mem, from, other, to, rest), to)
  {
    var a := from[i].phys;
    mem := (f: nat, o: nat) => if f == a then 1 else 0;
    hide Moved;
    assert mem(from[i].phys, 0) != mem(from[j].phys, 0);
  }

  /** Main result: dump on one device, restore on another. For all contents, every byte of every
      segment arrives exactly if segments that share memory on the second device shared it on the
      first; and no byte outside the second device's segments changes. */
  lemma CopySurvives(from: seq<Extent>, other: Memory, to: seq<Extent>, rest: seq<Byte>)
    requires SameSizes(from, to) && forall i :: 0 <= i < |from| ==> from[i].size > 0
    ensures (forall mem :: Arrives(mem, from, Moved(mem, from, other, to, rest), to)) <==> Coherent(from, to)
    ensures forall mem, f, o: nat :: (forall i :: 0 <= i < |to| ==> !to[i].Has(f, o)) ==> Moved(mem, from, other, to, rest)(f, o) == other(f, o)
  {
    hide Restored, Contents, Arrives;
    SameTotal(from, to);
    if Coherent(from, to) {
      forall mem ensures Arrives(mem, from, Moved(mem, from, other, to, rest), to) { CoherentArrives(mem, from, other, to, rest); }
    } else {
      var i, j :| 0 <= i < |from| && 0 <= j < |from| && to[i].phys == to[j].phys && from[i].phys != from[j].phys;
      var mem := IncoherentLoses(from, other, to, rest, i, j);
      assert !Arrives(mem, from, Moved(mem, from, other, to, rest), to);
    }
    forall mem, f, o: nat | forall i :: 0 <= i < |to| ==> !to[i].Has(f, o)
      ensures Moved(mem, from, other, to, rest)(f, o) == other(f, o)
    {
      var k := CopiedBack(mem, from, other, to, rest, |to|, f, o);
    }
  }
}
