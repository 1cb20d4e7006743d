/** What a checkpoint and a restore do to the contents of device memory: the manager's mappings decide
    which physical memory each segment is copied from and which it is copied back to. */
module DeviceContents {
  import opened Bytes
  import opened DeviceMemory
  import opened DeviceRestore
  import opened DeviceCopy

  ghost function ExtentAt(slots: map<nat, Slot>, p: nat): Extent {
    if p in slots then Extent(slots[p].phys, slots[p].size) else Extent(0, 0)
  }

  /** The memory behind the segments at these addresses. */
  ghost function Extents(slots: map<nat, Slot>, ptrs: seq<nat>): seq<Extent> {
    seq(|ptrs|, i requires 0 <= i < |ptrs| => ExtentAt(slots, ptrs[i]))
  }

  /** The extents of a checkpoint's segments, in its order. */
  ghost function SegmentExtents(s: State, slots: map<nat, Slot>): seq<Extent> {
    Extents(slots, Sorted(s.allocations.Keys))
  }

  /** Any two mappings that borrow one proxy show the same memory. */
  ghost predicate OneMemoryPerProxy(slots: map<nat, Slot>) {
    forall p, q :: p in slots && q in slots && slots[p].backing.Borrowed? && slots[p].backing == slots[q].backing ==>
      slots[p].phys == slots[q].phys
  }

  lemma LiveHasOneMemory(slots: map<nat, Slot>, handles: map<nat, UserHandle>)
    requires Live(slots, handles)
    ensures OneMemoryPerProxy(slots)
  {
  }

  lemma ExtentIs(slots: map<nat, Slot>, ks: seq<nat>, keys: set<nat>, i: nat)
    requires Lists(ks, keys) && keys == slots.Keys && i < |ks|
    ensures ks[i] in slots && Extents(slots, ks)[i] == Extent(slots[ks[i]].phys, slots[ks[i]].size)
  {
    assert ks[i] in ks;
  }

  lemma ExtentsSameSizes(a: map<nat, Slot>, b: map<nat, Slot>, ks: seq<nat>)
    requires SameSlots(a, b)
    ensures SameSizes(Extents(a, ks), Extents(b, ks))
  {
  }

  lemma ExtentsPositive(slots: map<nat, Slot>, ks: seq<nat>)
    requires Lists(ks, slots.Keys) && Mapped(slots)
    ensures forall i :: 0 <= i < |ks| ==> Extents(slots, ks)[i].size > 0
  {
    forall i | 0 <= i < |ks| ensures Extents(slots, ks)[i].size > 0 { ExtentIs(slots, ks, slots.Keys, i); }
  }

  /** Restored mappings share memory only where they borrow one proxy. */
  lemma SharedOnlyByProxy(b: map<nat, Slot>, hb: map<nat, UserHandle>, from: nat, to: nat, p: nat, q: nat)
    requires FreshOwned(b, from, to) && BorrowsFrom(b, hb) && Injective(hb) && Present(b, hb)
    requires forall k :: k in hb ==> hb[k].phys < from
    requires p in b && q in b && p != q
    ensures b[p].phys == b[q].phys <==> b[p].backing.Borrowed? && b[p].backing == b[q].backing
  {
  }

  lemma CoherentExactly(a: map<nat, Slot>, b: map<nat, Slot>, hb: map<nat, UserHandle>, from: nat, to: nat, ks: seq<nat>)
    requires Lists(ks, a.Keys) && SameSlots(a, b)
    requires FreshOwned(b, from, to) && BorrowsFrom(b, hb) && Injective(hb) && Present(b, hb)
    requires forall k :: k in hb ==> hb[k].phys < from
    ensures Coherent(Extents(a, ks), Extents(b, ks)) <==> OneMemoryPerProxy(a)
  {
    hide FreshOwned, BorrowsFrom, Injective, Present, Lists;
    var x, y := Extents(a, ks), Extents(b, ks);
    if OneMemoryPerProxy(a) {
      forall i, j | 0 <= i < |ks| && 0 <= j < |ks| && y[i].phys == y[j].phys ensures x[i].phys == x[j].phys {
        ExtentIs(a, ks, a.Keys, i);
        ExtentIs(a, ks, a.Keys, j);
        if ks[i] != ks[j] { SharedOnlyByProxy(b, hb, from, to, ks[i], ks[j]); }
      }
    }
    if Coherent(x, y) {
      forall p, q | p in a && q in a && a[p].backing.Borrowed? && a[p].backing == a[q].backing ensures a[p].phys == a[q].phys {
        if p != q {
          var i := Position(ks, a.Keys, p);
          var j := Position(ks, a.Keys, q);
          SharedOnlyByProxy(b, hb, from, to, p, q);
          assert x[i] == Extent(a[p].phys, a[p].size) && x[j] == Extent(a[q].phys, a[q].size);
          assert y[i].phys == b[p].phys && y[j].phys == b[q].phys;
        }
      }
    }
  }

  lemma PresentAlike(a: map<nat, Slot>, ha: map<nat, UserHandle>, b: map<nat, Slot>, hb: map<nat, UserHandle>)
    requires SameSlots(a, b) && SameHandles(ha, hb) && Present(a, ha)
    ensures Present(b, hb)
  {
  }

  /** The mappings of a restored manager against those of the original. */
  lemma RestoredExtents(s: State, blank: State)
    requires Inv(s) && Blank(s, blank) && Present(s.allocations, s.handles)
    ensures var t := RestoredState(s, blank); var x, y := SegmentExtents(s, s.allocations), SegmentExtents(s, t.allocations);
            && SameSizes(x, y) && (forall i :: 0 <= i < |x| ==> x[i].size > 0)
            && (Coherent(x, y) <==> OneMemoryPerProxy(s.allocations))
  {
    hide NewHandles, NewSlots, Sorted, Mapped, HandlesOk, PhysOk, Present, Lists, Segments, HandleMetas, Extents, Coherent, SameSizes;
    hide SameSlots, SameHandles, FreshOwned, BorrowsFrom, Injective, OneMemoryPerProxy;
    var t := RestoredState(s, blank);
    var ks, ps := Sorted(s.handles.Keys), Sorted(s.allocations.Keys);
    var base := blank.created + |ks|;
    SortedLists(s.handles.Keys);
    SortedLists(s.allocations.Keys);
    RestoredHandles(s.handles, ks, blank.created);
    RestoredSlots(s.allocations, ps, t.handles, base);
    PresentAlike(s.allocations, s.handles, t.allocations, t.handles);
    ExtentsSameSizes(s.allocations, t.allocations, ps);
    ExtentsPositive(s.allocations, ps);
    ExtentsLength(s.allocations, ps);
    CoherentExactly(s.allocations, t.allocations, t.handles, base, base + |ps|, ps);
  }

  lemma ExtentsLength(slots: map<nat, Slot>, ks: seq<nat>)
    ensures |Extents(slots, ks)| == |ks|
  {
  }

  /** Dump the contents of a manager's mappings, restore the manager, copy back: the second device's
      memory. */
  ghost function Transferred(s: State, t: State, mem: Memory, other: Memory, rest: seq<Byte>): Memory
    requires SameSizes(SegmentExtents(s, s.allocations), SegmentExtents(s, t.allocations))
  {
    Moved(mem, SegmentExtents(s, s.allocations), other, SegmentExtents(s, t.allocations), rest)
  }

  /** Every mapping of the restored manager shows what the original's did. */
  ghost predicate ContentsKept(s: State, t: State, mem: Memory, mem': Memory) {
    forall p, o :: p in s.allocations && p in t.allocations && 0 <= o < s.allocations[p].size ==>
      mem'(t.allocations[p].phys, o) == mem(s.allocations[p].phys, o)
  }

  lemma KeptIsArrived(s: State, t: State, mem: Memory, mem': Memory)
    requires SameSlots(s.allocations, t.allocations)
    ensures ContentsKept(s, t, mem, mem') <==>
            |SegmentExtents(s, s.allocations)| == |SegmentExtents(s, t.allocations)|
            && Arrives(mem, SegmentExtents(s, s.allocations), mem', SegmentExtents(s, t.allocations))
  {
    hide Sorted;
    var ks := Sorted(s.allocations.Keys);
    SortedLists(s.allocations.Keys);
    var x, y := Extents(s.allocations, ks), Extents(t.allocations, ks);
    if Arrives(mem, x, mem', y) {
      forall p, o | p in s.allocations && 0 <= o < s.allocations[p].size
        ensures mem'(t.allocations[p].phys, o) == mem(s.allocations[p].phys, o)
      {
        var i := Position(ks, s.allocations.Keys, p);
        assert x[i] == Extent(s.allocations[p].phys, s.allocations[p].size) && y[i].phys == t.allocations[p].phys;
      }
    }
    if ContentsKept(s, t, mem, mem') {
      forall i, o | 0 <= i < |x| && 0 <= o < x[i].size ensures mem'(y[i].phys, o) == mem(x[i].phys, o) {
        ExtentIs(s.allocations, ks, s.allocations.Keys, i);
      }
    }
  }

  /** Main result. Dump, restore the manager, copy back. For all contents of device memory, every byte
      behind every mapping is there again exactly if any two mappings that borrow one proxy showed the
      same memory. */
  lemma ContentsSurvive(s: State, blank: State, a: Answers, other: Memory, rest: seq<Byte>)
    requires Inv(s) && Blank(s, blank) && Willing(a) && Present(s.allocations, s.handles)
    ensures var (t, r) := Restore(blank, Checkpoint(s), a);
            && r.Ok? && SameSizes(SegmentExtents(s, s.allocations), SegmentExtents(s, t.allocations))
            && ((forall mem :: ContentsKept(s, t, mem, Transferred(s, t, mem, other, rest))) <==> OneMemoryPerProxy(s.allocations))
  {
    hide Restore, Checkpoint, RestoredState, SegmentExtents, Moved, Arrives, Coherent, SameSizes, OneMemoryPerProxy, Inv, Willing, Present, ContentsKept;
    RestoredCounts(s, blank, a);
    RestoredExtents(s, blank);
    var t := RestoredState(s, blank);
    RestoredSameSlots(s, blank);
    var x, y := SegmentExtents(s, s.allocations), SegmentExtents(s, t.allocations);
    SizesLength(x, y);
    CopySurvives(x, other, y, rest);
    forall mem
      ensures ContentsKept(s, t, mem, Transferred(s, t, mem, other, rest)) <==> Arrives(mem, x, Moved(mem, x, other, y, rest), y)
    {
      KeptIsArrived(s, t, mem, Transferred(s, t, mem, other, rest));
    }
  }

  lemma SizesLength(x: seq<Extent>, y: seq<Extent>)
    requires SameSizes(x, y)
    ensures |x| == |y|
  {
  }

  lemma RestoredSameSlots(s: State, blank: State)
    requires Inv(s) && Blank(s, blank) && Present(s.allocations, s.handles)
    ensures SameSlots(s.allocations, RestoredState(s, blank).allocations)
  {
    hide RestoredState, Mapped, HandlesOk, PhysOk, Present, Live, Same;
    RestoredIs(s, blank);
  }

  /** In particular nothing is lost while every borrowed proxy is live. */
  lemma LiveContentsSurvive(s: State, blank: State, a: Answers, mem: Memory, other: Memory, rest: seq<Byte>)
    requires Inv(s) && Blank(s, blank) && Willing(a) && Live(s.allocations, s.handles)
    ensures var (t, r) := Restore(blank, Checkpoint(s), a);
            && r.Ok? && SameSizes(SegmentExtents(s, s.allocations), SegmentExtents(s, t.allocations))
            && ContentsKept(s, t, mem, Transferred(s, t, mem, other, rest))
  {
    hide Restore, Checkpoint, SegmentExtents, Transferred, SameSizes, OneMemoryPerProxy, Inv, Willing, Present, Live, ContentsKept;
    LiveIsPresent(s.allocations, s.handles);
    LiveHasOneMemory(s.allocations, s.handles);
    ContentsSurvive(s, blank, a, other, rest);
  }

  lemma MappedSecond(s: State, p: nat, q: nat, size: nat)
    requires 1 in s.handles && size > 0 && p + size <= q && s.allocations.Keys == {p} && s.allocations[p].size == size
    ensures Map(s, q, size, 1, IDLE).0 == s.(allocations := s.allocations[q := Slot(size, Borrowed(1), s.handles[1].phys)])
  {
    assert Free(s.allocations, q, size);
  }

  /** It can be lost. A handle is mapped and released, its number given to a new one, and that mapped
      beside the first: both mappings are restored onto one memory, and for some contents one of them
      then shows the other's. */
  lemma ReusedProxyLosesContents(s: State, blank: State, a: Answers, size: nat, prop: Prop, other: Memory, rest: seq<Byte>)
    returns (calls: seq<(Op, Driver)>, mem: Memory)
    requires Inv(s) && s.allocations == map[] && s.handles == map[] && size > 0 && Blank(s, blank) && Willing(a)
    ensures var u := Run(s, calls).0; var (t, r) := Restore(blank, Checkpoint(u), a);
            && r.Ok? && SameSizes(SegmentExtents(u, u.allocations), SegmentExtents(u, t.allocations))
            && !ContentsKept(u, t, mem, Transferred(u, t, mem, other, rest))
  {
    hide Inv, Create, Map, Run, Restore, Checkpoint, Willing, ContentsKept, Transferred, SegmentExtents, SameSizes;
    RunNothing(s);
    var p, q := s.lo, s.lo + size;
    var create, release := (DoCreate(size, prop), IDLE), (DoRelease(1), IDLE);
    var first, second := (DoMap(p, size, 1), IDLE), (DoMap(q, size, 1), IDLE);
    calls := [] + [create] + [first] + [release] + [create] + [second];
    RunNext(s, [], create.0, create.1);
    RunNext(s, [] + [create], first.0, first.1);
    RunNext(s, [] + [create] + [first], release.0, release.1);
    RunNext(s, [] + [create] + [first] + [release], create.0, create.1);
    RunNext(s, [] + [create] + [first] + [release] + [create], second.0, second.1);
    CreatedFirst(s, size, prop);
    var s1 := Create(s, size, prop, IDLE).0;
    MappedFirst(s1, p, size);
    var s2 := Map(s1, p, size, 1, IDLE).0;
    var s3 := ReleaseUser(s2, 1, IDLE).0;
    assert s3.handles == map[];
    CreatedFirst(s3, size, prop);
    var s4 := Create(s3, size, prop, IDLE).0;
    MappedSecond(s4, p, q, size);
    var u := Map(s4, q, size, 1, IDLE).0;
    assert p in u.allocations && q in u.allocations;
    assert Present(u.allocations, u.handles) && !OneMemoryPerProxy(u.allocations);
    assert Run(s, calls).0 == u;
    ContentsSurvive(u, blank, a, other, rest);
    var t := Restore(blank, Checkpoint(u), a).0;
    mem :| !ContentsKept(u, t, mem, Transferred(u, t, mem, other, rest));
  }
}
