/** The device memory manager in the form the worker runs it: fields updated in place, loops over the
    ordered maps. Each operation is tied to the value-level model. */
module DeviceManager {
  import opened Options
  import opened DeviceMemory
  import opened DeviceRestore

  method MaxKey(keys: set<nat>) returns (k: nat)
    requires keys != {}
    ensures k == Max(keys)
  {
    k :| k in keys;
    var todo := keys - {k};
    while todo != {}
      invariant todo <= keys && k in keys && forall j :: j in keys && j !in todo ==> j <= k
      decreases todo
    {
      var j :| j in todo;
      if j > k { k := j; }
      todo := todo - {j};
    }
  }

  /** The keys of an ordered map, in iteration order. */
  method KeysInOrder(keys: set<nat>) returns (ks: seq<nat>)
    ensures ks == Sorted(keys)
  {
    ks := [];
    var todo := keys;
    while todo != {}
      invariant Sorted(keys) == Sorted(todo) + ks
      decreases todo
    {
      var k := MaxKey(todo);
      assert Sorted(todo) + ks == Sorted(todo - {k}) + ([k] + ks);
      ks := [k] + ks;
      todo := todo - {k};
    }
  }

  class Manager {
    const granularity: nat
    const lo: nat
    const hi: nat
    var next: nat
    var allocations: map<nat, Slot>
    var handles: map<nat, UserHandle>
    var created: nat

    ghost function Value(): State
      reads this
    {
      State(granularity, lo, hi, next, allocations, handles, created)
    }

    ghost predicate Valid()
      reads this
    {
      Inv(Value())
    }

    /** `new`, on a range the driver has reserved. */
    constructor (granularity: nat, lo: nat, hi: nat)
      requires 0 < granularity && lo <= hi < WORDS
      ensures Valid() && Value() == State(granularity, lo, hi, lo, map[], map[], 0)
    {
      this.granularity, this.lo, this.hi := granularity, lo, hi;
      next, allocations, handles, created := lo, map[], map[], 0;
    }

    method ReserveAligned(size: nat) returns (r: Outcome)
      requires Valid()
      modifies this`next
      ensures Valid() && (Value(), r) == Reserve(old(Value()), size)
    {
      hide Mapped, HandlesOk, PhysOk;
      var end := (next + size) % WORDS;
      if end > hi { return Err(OutOfMemory); }
      r := Ok(next);
      next := end;
    }

    method ReserveAddress(size: nat, alignment: nat) returns (r: Outcome)
      requires Valid()
      modifies this`next
      ensures Valid() && (Value(), r) == Step(old(Value()), DoReserve(size, alignment), IDLE)
    {
      hide Mapped, HandlesOk, PhysOk, Reserve;
      if alignment != 0 && granularity % alignment != 0 { return Panic; }
      r := ReserveAligned(NextMultiple(size, granularity));
    }

    /** `allocate`. The insertion never meets an occupied slot: the source's assertion holds. */
    method Allocate(size: nat, d: Driver) returns (r: Outcome)
      requires Valid()
      modifies this
      ensures Valid() && (Value(), r) == Step(old(Value()), DoAllocate(size), d) && !r.Panic?
    {
      hide Mapped, HandlesOk, PhysOk, Free, RoundUp, Reserve;
      StepKeeps(Value(), DoAllocate(size), d);
      var n := NextMultiple(size, granularity);
      r := ReserveAligned(n);
      AllocateAtKeeps(Value(), if r.Ok? then r.value else 0, n, d);
      if !r.Ok? { return; }
      if d.context.Some? { return Err(DriverError(d.context.value)); }
      var c := CreateFails(n, d.create);
      if c.Some? { return Err(c.value); }
      var phys := created;
      created := created + 1;
      var ptr := r.value;
      var m := MapFails(allocations, ptr, n, d.map_);
      if m.Some? { return Err(m.value); }
      if d.access.Some? { return Err(DriverError(d.access.value)); }
      assert ptr !in allocations by { FreeIsVacant(allocations, ptr, n); }
      allocations := allocations[ptr := Slot(n, Owned, phys)];
    }

    method FreeAllocation(ptr: nat, d: Driver) returns (r: Outcome)
      requires Valid()
      modifies this`allocations
      ensures Valid() && (Value(), r) == Step(old(Value()), DoFree(ptr), d)
    {
      hide Mapped, HandlesOk, PhysOk;
      StepKeeps(Value(), DoFree(ptr), d);
      if ptr == 0 { return Ok(0); }
      if ptr !in allocations { return Err(InvalidValue); }
      allocations := allocations - {ptr};
      if d.context.Some? { return Err(DriverError(d.context.value)); }
      r := Ok(0);
    }

    method CreateUserHandle(size: nat, prop: Prop, d: Driver) returns (r: Outcome)
      requires Valid()
      modifies this`handles, this`created
      ensures Valid() && (Value(), r) == Step(old(Value()), DoCreate(size, prop), d)
    {
      hide Mapped, HandlesOk, PhysOk;
      StepKeeps(Value(), DoCreate(size, prop), d);
      var proxy := 1;
      if handles != map[] {
        var last := MaxKey(handles.Keys);
        proxy := last + 1;
      }
      assert proxy == NewProxy(handles.Keys);
      if d.context.Some? { return Err(DriverError(d.context.value)); }
      var c := CreateFails(size, d.create);
      if c.Some? { return Err(c.value); }
      assert proxy !in handles;
      handles := handles[proxy := UserHandle(created, size, prop)];
      created := created + 1;
      r := Ok(proxy);
    }

    method MapUserHandle(ptr: nat, size: nat, proxy: nat, d: Driver) returns (r: Outcome)
      requires Valid()
      modifies this`allocations
      ensures Valid() && (Value(), r) == Step(old(Value()), DoMap(ptr, size, proxy), d)
    {
      hide Mapped, HandlesOk, PhysOk, Free;
      StepKeeps(Value(), DoMap(ptr, size, proxy), d);
      if proxy !in handles { return Err(InvalidValue); }
      if ptr in allocations { return Err(AlreadyMapped); }
      if d.context.Some? { return Err(DriverError(d.context.value)); }
      var m := MapFails(allocations, ptr, size, d.map_);
      if m.Some? { return Err(m.value); }
      allocations := allocations[ptr := Slot(size, Borrowed(proxy), handles[proxy].phys)];
      r := Ok(0);
    }

    method UnmapRange(ptr: nat, size: nat, d: Driver) returns (r: Outcome)
      requires Valid()
      modifies this`allocations
      ensures Valid() && (Value(), r) == Step(old(Value()), DoUnmap(ptr, size), d)
    {
      hide Mapped, HandlesOk, PhysOk;
      StepKeeps(Value(), DoUnmap(ptr, size), d);
      if ptr !in allocations { return Err(InvalidValue); }
      if allocations[ptr].backing.Owned? || allocations[ptr].size != size { return Err(InvalidValue); }
      allocations := allocations - {ptr};
      if d.context.Some? { return Err(DriverError(d.context.value)); }
      r := Ok(0);
    }

    method ReleaseUserHandle(proxy: nat, d: Driver) returns (r: Outcome)
      requires Valid()
      modifies this`handles
      ensures Valid() && (Value(), r) == Step(old(Value()), DoRelease(proxy), d)
    {
      hide Mapped, HandlesOk, PhysOk;
      StepKeeps(Value(), DoRelease(proxy), d);
      if proxy !in handles { return Err(InvalidValue); }
      handles := handles - {proxy};
      if d.context.Some? { return Err(DriverError(d.context.value)); }
      r := Ok(0);
    }

    /** `checkpoint_meta`: all mappings and handles in key order, or the first error among pushing the
        context and asking for each handle's properties. */
    method CheckpointMeta(context: Option<nat>, props: nat -> Option<nat>) returns (m: Meta, o: Outcome)
      ensures o.Ok? <==> context.None? && forall i :: 0 <= i < |Sorted(handles.Keys)| ==> props(i).None?
      ensures o.Ok? ==> m == Checkpoint(Value())
      ensures context.Some? ==> o == Err(DriverError(context.value))
      ensures !o.Ok? && context.None? ==>
                exists i :: 0 <= i < |Sorted(handles.Keys)| && props(i).Some? && o == Err(DriverError(props(i).value))
                         && forall j :: 0 <= j < i ==> props(j).None?
    {
      hide Sorted, Lists;
      m := Meta(granularity, next, [], []);
      if context.Some? { return m, Err(DriverError(context.value)); }
      var ptrs := KeysInOrder(allocations.Keys);
      SortedLists(allocations.Keys);
      var segments: seq<Segment> := [];
      for i := 0 to |ptrs|
        invariant segments == Segments(allocations, ptrs)[..i]
      {
        SegmentIs(allocations, ptrs, i);
        segments := segments + [SegmentOf(ptrs[i], allocations[ptrs[i]])];
      }
      var proxies := KeysInOrder(handles.Keys);
      SortedLists(handles.Keys);
      var metas: seq<HandleMeta> := [];
      for i := 0 to |proxies|
        invariant metas == HandleMetas(handles, proxies)[..i]
        invariant forall j :: 0 <= j < i ==> props(j).None?
      {
        if props(i).Some? { return m, Err(DriverError(props(i).value)); }
        MetaAt(handles, proxies, i);
        metas := metas + [HandleMetaOf(proxies[i], handles[proxies[i]])];
      }
      m := Meta(granularity, next, segments, metas);
      o := Ok(0);
    }

    /** `restore`: the checks, then the handles, then the mappings; the maps are stored only at the
        end, so a failure half way leaves them empty but `next` already moved. */
    method RestoreFrom(m: Meta, a: Answers) returns (r: Outcome)
      modifies this
      ensures (Value(), r) == Restore(old(Value()), m, a)
    {
      hide HandlesOutcome, SegmentsOutcome, NewHandles, NewSlots;
      if allocations != map[] || handles != map[] { return Err(InvalidContext); }
      if m.granularity != granularity { return Err(InvalidValue); }
      if m.next > hi { return Err(InvalidValue); }
      next := m.next;
      var base := created;
      created := created + |m.handles| + |m.segments|;
      if a.context.Some? { return Err(DriverError(a.context.value)); }
      var madeHandles: map<nat, UserHandle>;
      madeHandles, r := RestoreHandles(m.handles, base, a.creates);
      if !r.Ok? { return; }
      var madeSlots: map<nat, Slot>;
      madeSlots, r := RestoreSegments(m.segments, madeHandles, base + |m.handles|, a.maps);
      if !r.Ok? { return; }
      handles := madeHandles;
      allocations := madeSlots;
    }
  }

  method RestoreHandles(metas: seq<HandleMeta>, base: nat, answers: nat -> Option<nat>) returns (made: map<nat, UserHandle>, r: Outcome)
    ensures r == HandlesOutcome(metas, |metas|, answers)
    ensures r.Ok? ==> made == NewHandles(metas, base)
  {
    hide CreateOutcome;
    made := map[];
    for i := 0 to |metas|
      invariant HandlesOutcome(metas, i, answers) == Ok(0)
      invariant made == NewHandles(metas[..i], base)
    {
      MadeProxies(metas, i, base);
      assert metas[..i + 1][..i] == metas[..i];
      var o := CreateEntry(metas, i, made, answers(i), answers);
      if !o.Ok? {
        FirstFailure(metas, i + 1, answers);
        return made, o;
      }
      made := made[metas[i].proxy := UserHandle(base + i, metas[i].size, metas[i].prop)];
    }
    assert metas[..|metas|] == metas;
    r := Ok(0);
  }

  method CreateEntry(metas: seq<HandleMeta>, i: nat, made: map<nat, UserHandle>, answer: Option<nat>, ghost answers: nat -> Option<nat>)
    returns (o: Outcome)
    requires i < |metas| && answer == answers(i)
    requires forall k :: k in made <==> exists j :: 0 <= j < i && metas[j].proxy == k
    ensures o == CreateOutcome(metas, i, answers) && (o.Ok? ==> o.value == 0)
  {
    var c := CreateFails(metas[i].size, answer);
    if c.Some? { return Err(c.value); }
    if metas[i].proxy in made { return Panic; }
    o := Ok(0);
  }

  lemma {:induction false} MadeProxies(metas: seq<HandleMeta>, n: nat, base: nat)
    requires n <= |metas|
    ensures forall k :: k in NewHandles(metas[..n], base) <==> exists j :: 0 <= j < n && metas[j].proxy == k
  {
    if n > 0 {
      MadeProxies(metas, n - 1, base);
      assert metas[..n][..n - 1] == metas[..n - 1];
      forall k ensures k in NewHandles(metas[..n], base) <==> exists j :: 0 <= j < n && metas[j].proxy == k {
        assert k == metas[n - 1].proxy ==> exists j :: 0 <= j < n && metas[j].proxy == k;
      }
    }
  }

  /** A failure is the outcome of the whole loop. */
  lemma {:induction false} FirstFailure(metas: seq<HandleMeta>, n: nat, answers: nat -> Option<nat>)
    requires n <= |metas| && !HandlesOutcome(metas, n, answers).Ok?
    ensures HandlesOutcome(metas, |metas|, answers) == HandlesOutcome(metas, n, answers)
    decreases |metas| - n
  {
    if n < |metas| { FirstFailure(metas, n + 1, answers); }
  }

  lemma {:induction false} FirstSegmentFailure(segments: seq<Segment>, n: nat, handles: map<nat, UserHandle>, base: nat, answers: nat -> Driver)
    requires n <= |segments| && !SegmentsOutcome(segments, n, handles, base, answers).Ok?
    ensures SegmentsOutcome(segments, |segments|, handles, base, answers) == SegmentsOutcome(segments, n, handles, base, answers)
    decreases |segments| - n
  {
    hide SegmentOutcome;
    if n < |segments| { FirstSegmentFailure(segments, n + 1, handles, base, answers); }
  }

  method RestoreSegments(segments: seq<Segment>, handles: map<nat, UserHandle>, base: nat, answers: nat -> Driver)
    returns (made: map<nat, Slot>, r: Outcome)
    ensures r == SegmentsOutcome(segments, |segments|, handles, base, answers) && (r.Ok? ==> r.value == 0)
    ensures r.Ok? ==> made == NewSlots(segments, handles, base)
  {
    hide SegmentOutcome, NewSlot;
    made := map[];
    for i := 0 to |segments|
      invariant SegmentsOutcome(segments, i, handles, base, answers) == Ok(0)
      invariant made == NewSlots(segments[..i], handles, base)
    {
      assert segments[..i + 1][..i] == segments[..i];
      var slot, o := RestoreSegment(segments[i], made, handles, base + i, answers(i));
      if !o.Ok? {
        FirstSegmentFailure(segments, i + 1, handles, base, answers);
        return made, o;
      }
      made := made[segments[i].ptr := slot];
    }
    assert segments[..|segments|] == segments;
    r := Ok(0);
  }

  /** One segment: memory of its own, or its user handle's. */
  method RestoreSegment(g: Segment, made: map<nat, Slot>, handles: map<nat, UserHandle>, phys: nat, d: Driver)
    returns (slot: Slot, o: Outcome)
    ensures o == SegmentOutcome(g, made, handles, d) && (o.Ok? ==> o.value == 0)
    ensures o.Ok? ==> slot == NewSlot(g, handles, phys)
  {
    hide Free;
    slot := Slot(0, Owned, 0);
    if g.proxy == 0 {
      var c := CreateFails(g.size, d.create);
      if c.Some? { return slot, Err(c.value); }
    } else if g.proxy !in handles {
      return slot, Err(InvalidValue);
    }
    var m := MapFails(made, g.ptr, g.size, d.map_);
    if m.Some? { return slot, Err(m.value); }
    slot := if g.proxy == 0 then Slot(g.size, Owned, phys) else Slot(g.size, Borrowed(g.proxy), handles[g.proxy].phys);
    if d.access.Some? { return slot, Err(DriverError(d.access.value)); }
    if g.ptr in made { return slot, Panic; }
    o := Ok(0);
  }
}
