/** Checkpointing the device memory manager and restoring it elsewhere: the restored manager answers
    every later call as the original would. */
module DeviceRestore {
  import opened Options
  import opened DeviceMemory

  // ---------------------------------------------------------------- observational equality

  ghost predicate SameSlots(a: map<nat, Slot>, b: map<nat, Slot>) {
    && a.Keys == b.Keys
    && forall p :: p in a ==> a[p].size == b[p].size && a[p].backing == b[p].backing
  }

  ghost predicate SameHandles(a: map<nat, UserHandle>, b: map<nat, UserHandle>) {
    && a.Keys == b.Keys
    && forall k :: k in a ==> a[k].size == b[k].size && SameProps(a[k].prop, b[k].prop)
  }

  /** The allocation properties a checkpoint records; the usage flags are not among them. */
  predicate SameProps(p: Prop, q: Prop) {
    p.handleTypes == q.handleTypes && p.compression == q.compression && p.rdma == q.rdma
  }

  /** Two mappings show the same memory in one exactly when they do in the other. */
  ghost predicate SameAliases(a: map<nat, Slot>, b: map<nat, Slot>)
    requires a.Keys == b.Keys
  {
    forall p, q :: p in a && q in a ==> (a[p].phys == a[q].phys <==> b[p].phys == b[q].phys)
  }

  /** A mapping shows a user handle's memory in one exactly when it does in the other. */
  ghost predicate SameSources(a: map<nat, Slot>, ha: map<nat, UserHandle>, b: map<nat, Slot>, hb: map<nat, UserHandle>)
    requires a.Keys == b.Keys && ha.Keys == hb.Keys
  {
    forall p, k :: p in a && k in ha ==> (a[p].phys == ha[k].phys <==> b[p].phys == hb[k].phys)
  }

  /** Equal in everything an answer can depend on: all but which memory is behind what. */
  ghost predicate Alike(a: State, b: State) {
    && a.granularity == b.granularity && a.hi == b.hi && a.next == b.next
    && SameSlots(a.allocations, b.allocations) && SameHandles(a.handles, b.handles)
  }

  ghost predicate Same(a: State, b: State) {
    && a.granularity == b.granularity && a.hi == b.hi && a.next == b.next
    && SameMaps(a.allocations, a.handles, b.allocations, b.handles)
  }

  lemma SameFree(a: map<nat, Slot>, b: map<nat, Slot>, ptr: nat, size: nat)
    requires SameSlots(a, b)
    ensures Free(a, ptr, size) == Free(b, ptr, size)
  {
  }

  lemma SameKeys(a: map<nat, Slot>, b: map<nat, Slot>, ptr: nat)
    requires SameSlots(a, b)
    ensures ptr in a <==> ptr in b
  {
  }

  ghost predicate SameMaps(a: map<nat, Slot>, ha: map<nat, UserHandle>, b: map<nat, Slot>, hb: map<nat, UserHandle>) {
    SameSlots(a, b) && SameHandles(ha, hb) && SameAliases(a, b) && SameSources(a, ha, b, hb)
  }

  ghost predicate Below(a: map<nat, Slot>, ha: map<nat, UserHandle>, created: nat) {
    && (forall p :: p in a ==> a[p].phys < created)
    && (forall k :: k in ha ==> ha[k].phys < created)
  }

  lemma InvBelow(s: State)
    requires Inv(s)
    ensures Below(s.allocations, s.handles, s.created)
  {
  }

  lemma SameInsertOwned(a: map<nat, Slot>, ha: map<nat, UserHandle>, x: nat, b: map<nat, Slot>, hb: map<nat, UserHandle>, y: nat,
                        ptr: nat, n: nat)
    requires SameMaps(a, ha, b, hb) && Below(a, ha, x) && Below(b, hb, y)
    ensures SameMaps(a[ptr := Slot(n, Owned, x)], ha, b[ptr := Slot(n, Owned, y)], hb)
  {
    var a', b' := a[ptr := Slot(n, Owned, x)], b[ptr := Slot(n, Owned, y)];
    assert SameSlots(a', b');
    assert SameAliases(a', b');
    assert SameSources(a', ha, b', hb);
  }

  ghost predicate Injective(h: map<nat, UserHandle>) {
    forall j, k :: j in h && k in h && j != k ==> h[j].phys != h[k].phys
  }

  lemma InvInjective(s: State)
    requires Inv(s)
    ensures Injective(s.handles)
  {
  }

  lemma SameInsertBorrowed(a: map<nat, Slot>, ha: map<nat, UserHandle>, b: map<nat, Slot>, hb: map<nat, UserHandle>,
                           ptr: nat, n: nat, k: nat)
    requires SameMaps(a, ha, b, hb) && Injective(ha) && Injective(hb) && k in ha && k in hb
    ensures SameMaps(a[ptr := Slot(n, Borrowed(k), ha[k].phys)], ha, b[ptr := Slot(n, Borrowed(k), hb[k].phys)], hb)
  {
    var a', b' := a[ptr := Slot(n, Borrowed(k), ha[k].phys)], b[ptr := Slot(n, Borrowed(k), hb[k].phys)];
    assert SameSlots(a', b');
    assert SameAliases(a', b');
    assert SameSources(a', ha, b', hb);
  }

  lemma SameRemove(a: State, b: State, ptr: nat)
    requires Same(a, b)
    ensures Same(a.(allocations := a.allocations - {ptr}), b.(allocations := b.allocations - {ptr}))
  {
  }

  lemma SameReleaseHandle(a: State, b: State, k: nat)
    requires Same(a, b)
    ensures Same(a.(handles := a.handles - {k}), b.(handles := b.handles - {k}))
  {
  }

  lemma SameNewHandle(a: map<nat, Slot>, ha: map<nat, UserHandle>, x: nat, b: map<nat, Slot>, hb: map<nat, UserHandle>, y: nat,
                      k: nat, size: nat, prop: Prop)
    requires SameMaps(a, ha, b, hb) && Below(a, ha, x) && Below(b, hb, y)
    ensures SameMaps(a, ha[k := UserHandle(x, size, prop)], b, hb[k := UserHandle(y, size, prop)])
  {
  }

  lemma SameAllocateAt(a: State, b: State, ptr: nat, n: nat, d: Driver)
    requires Inv(a) && Inv(b) && Same(a, b)
    ensures AllocateAt(a, ptr, n, d).1 == AllocateAt(b, ptr, n, d).1
    ensures Same(AllocateAt(a, ptr, n, d).0, AllocateAt(b, ptr, n, d).0)
  {
    hide SameSlots, SameHandles, SameAliases, SameSources, Inv, Free, Below;
    SameFree(a.allocations, b.allocations, ptr, n);
    SameKeys(a.allocations, b.allocations, ptr);
    InvBelow(a);
    InvBelow(b);
    SameInsertOwned(a.allocations, a.handles, a.created, b.allocations, b.handles, b.created, ptr, n);
  }

  lemma ReserveInv(s: State, n: nat)
    requires Inv(s)
    ensures Inv(Reserve(s, n).0)
  {
  }

  lemma SameAllocate(a: State, b: State, size: nat, d: Driver)
    requires Inv(a) && Inv(b) && Same(a, b)
    ensures Allocate(a, size, d).1 == Allocate(b, size, d).1 && Same(Allocate(a, size, d).0, Allocate(b, size, d).0)
  {
    hide SameSlots, SameHandles, SameAliases, SameSources, Mapped, HandlesOk, PhysOk, AllocateAt, RoundUp;
    var n := NextMultiple(size, a.granularity);
    ReserveInv(a, n);
    ReserveInv(b, n);
    SameAllocateAt(Reserve(a, n).0, Reserve(b, n).0, a.next, n, d);
  }

  lemma SameMap(a: State, b: State, ptr: nat, size: nat, proxy: nat, d: Driver)
    requires Inv(a) && Inv(b) && Same(a, b)
    ensures Map(a, ptr, size, proxy, d).1 == Map(b, ptr, size, proxy, d).1
    ensures Same(Map(a, ptr, size, proxy, d).0, Map(b, ptr, size, proxy, d).0)
  {
    hide SameSlots, SameAliases, SameSources, Inv, Free, Injective;
    SameFree(a.allocations, b.allocations, ptr, size);
    SameKeys(a.allocations, b.allocations, ptr);
    InvInjective(a);
    InvInjective(b);
    if proxy in a.handles {
      SameInsertBorrowed(a.allocations, a.handles, b.allocations, b.handles, ptr, size, proxy);
    }
  }

  /** One call: equal managers answer alike and stay equal. */
  lemma StepSame(a: State, b: State, op: Op, d: Driver)
    requires Inv(a) && Inv(b) && Same(a, b)
    ensures Step(a, op, d).1 == Step(b, op, d).1 && Same(Step(a, op, d).0, Step(b, op, d).0)
  {
    hide SameAliases, SameSources, Mapped, HandlesOk, PhysOk, Allocate, Map, RoundUp, Below;
    match op
    case DoAllocate(size) => SameAllocate(a, b, size, d);
    case DoReserve(size, alignment) =>
    case DoFree(ptr) => SameRemove(a, b, ptr);
    case DoCreate(size, prop) =>
      InvBelow(a);
      InvBelow(b);
      SameNewHandle(a.allocations, a.handles, a.created, b.allocations, b.handles, b.created,
                    NewProxy(a.handles.Keys), size, prop);
    case DoMap(ptr, size, proxy) => SameMap(a, b, ptr, size, proxy, d);
    case DoUnmap(ptr, size) => SameRemove(a, b, ptr);
    case DoRelease(proxy) => SameReleaseHandle(a, b, proxy);
  }

  lemma AlikeAllocateAt(a: State, b: State, ptr: nat, n: nat, d: Driver)
    requires Alike(a, b)
    ensures AllocateAt(a, ptr, n, d).1 == AllocateAt(b, ptr, n, d).1
    ensures Alike(AllocateAt(a, ptr, n, d).0, AllocateAt(b, ptr, n, d).0)
  {
    hide Free;
    SameFree(a.allocations, b.allocations, ptr, n);
    SameKeys(a.allocations, b.allocations, ptr);
  }

  lemma AlikeMap(a: State, b: State, ptr: nat, size: nat, proxy: nat, d: Driver)
    requires Alike(a, b)
    ensures Map(a, ptr, size, proxy, d).1 == Map(b, ptr, size, proxy, d).1
    ensures Alike(Map(a, ptr, size, proxy, d).0, Map(b, ptr, size, proxy, d).0)
  {
    hide Free;
    SameFree(a.allocations, b.allocations, ptr, size);
    SameKeys(a.allocations, b.allocations, ptr);
  }

  /** No answer depends on which memory is behind a mapping or a handle. */
  lemma StepAlike(a: State, b: State, op: Op, d: Driver)
    requires Alike(a, b) && a.granularity > 0
    ensures Step(a, op, d).1 == Step(b, op, d).1 && Alike(Step(a, op, d).0, Step(b, op, d).0)
  {
    hide AllocateAt, Map, RoundUp;
    match op
    case DoAllocate(size) =>
      var n := NextMultiple(size, a.granularity);
      AlikeAllocateAt(Reserve(a, n).0, Reserve(b, n).0, a.next, n, d);
    case DoMap(ptr, size, proxy) => AlikeMap(a, b, ptr, size, proxy, d);
    case _ =>
  }

  ghost function Run(s: State, calls: seq<(Op, Driver)>): (State, seq<Outcome>)
    requires Inv(s)
    ensures Inv(Run(s, calls).0)
  {
    if calls == [] then (s, [])
    else
      var last := calls[|calls| - 1];
      var (t, outcomes) := Run(s, calls[..|calls| - 1]);
      StepKeeps(t, last.0, last.1);
      (Step(t, last.0, last.1).0, outcomes + [Step(t, last.0, last.1).1])
  }

  /** Whole runs: the same addresses, the same proxies, the same error codes. */
  lemma {:induction false} RunSame(a: State, b: State, calls: seq<(Op, Driver)>)
    requires Inv(a) && Inv(b) && Same(a, b)
    ensures Run(a, calls).1 == Run(b, calls).1 && Same(Run(a, calls).0, Run(b, calls).0)
  {
    hide Same, Inv, Step;
    if calls != [] {
      var front, last := calls[..|calls| - 1], calls[|calls| - 1];
      RunSame(a, b, front);
      StepSame(Run(a, front).0, Run(b, front).0, last.0, last.1);
    }
  }

  lemma {:induction false} RunAlike(a: State, b: State, calls: seq<(Op, Driver)>)
    requires Inv(a) && Inv(b) && Alike(a, b)
    ensures Run(a, calls).1 == Run(b, calls).1 && Alike(Run(a, calls).0, Run(b, calls).0)
  {
    hide Step, Mapped, HandlesOk, PhysOk, Alike;
    if calls != [] {
      var front, last := calls[..|calls| - 1], calls[|calls| - 1];
      RunAlike(a, b, front);
      StepAlike(Run(a, front).0, Run(b, front).0, last.0, last.1);
    }
  }

  // ---------------------------------------------------------------- checkpoint

  datatype Segment = Segment(ptr: nat, size: nat, proxy: nat)             // proxy 0: owned
  datatype HandleMeta = HandleMeta(proxy: nat, size: nat, prop: Prop)
  datatype Meta = Meta(granularity: nat, next: nat, segments: seq<Segment>, handles: seq<HandleMeta>)

  /** Keys in increasing order, as an ordered map iterates. */
  ghost function Sorted(keys: set<nat>): seq<nat> {
    if keys == {} then [] else Sorted(keys - {Max(keys)}) + [Max(keys)]
  }

  ghost predicate Lists(ks: seq<nat>, keys: set<nat>) {
    && (forall k :: k in ks <==> k in keys)
    && (forall i, j :: 0 <= i < j < |ks| ==> ks[i] < ks[j])
  }

  lemma ListsAppend(front: seq<nat>, keys: set<nat>, k: nat)
    requires IsMax(keys, k) && Lists(front, keys - {k})
    ensures Lists(front + [k], keys)
  {
    assert forall i :: 0 <= i < |front| ==> front[i] in front;
  }

  lemma {:induction false} SortedLists(keys: set<nat>)
    ensures Lists(Sorted(keys), keys)
  {
    if keys != {} {
      hide Lists, IsMax;
      SortedLists(keys - {Max(keys)});
      ListsAppend(Sorted(keys - {Max(keys)}), keys, Max(keys));
    } else {
      assert Lists([], keys);
    }
  }

  function SegmentOf(ptr: nat, slot: Slot): Segment {
    Segment(ptr, slot.size, match slot.backing case Owned => 0 case Borrowed(proxy) => proxy)
  }

  function HandleMetaOf(proxy: nat, h: UserHandle): HandleMeta { HandleMeta(proxy, h.size, h.prop.(usage := 0)) }

  ghost function SegmentAt(allocations: map<nat, Slot>, ptr: nat): Segment {
    if ptr in allocations then SegmentOf(ptr, allocations[ptr]) else Segment(ptr, 0, 0)
  }

  ghost function HandleMetaAt(handles: map<nat, UserHandle>, proxy: nat): HandleMeta {
    if proxy in handles then HandleMetaOf(proxy, handles[proxy]) else HandleMeta(proxy, 0, Prop(0, 0, 0, 0))
  }

  ghost function Segments(allocations: map<nat, Slot>, ptrs: seq<nat>): seq<Segment> {
    seq(|ptrs|, i requires 0 <= i < |ptrs| => SegmentAt(allocations, ptrs[i]))
  }

  ghost function HandleMetas(handles: map<nat, UserHandle>, proxies: seq<nat>): seq<HandleMeta> {
    seq(|proxies|, i requires 0 <= i < |proxies| => HandleMetaAt(handles, proxies[i]))
  }

  ghost function Checkpoint(s: State): Meta {
    Meta(s.granularity, s.next, Segments(s.allocations, Sorted(s.allocations.Keys)), HandleMetas(s.handles, Sorted(s.handles.Keys)))
  }

  // ---------------------------------------------------------------- restore

  /** The handles a restore creates, in order, each with memory of its own. */
  ghost function NewHandles(metas: seq<HandleMeta>, created: nat): map<nat, UserHandle> {
    if metas == [] then map[]
    else
      var last := metas[|metas| - 1];
      NewHandles(metas[..|metas| - 1], created)[last.proxy := UserHandle(created + |metas| - 1, last.size, last.prop)]
  }

  ghost function NewSlot(g: Segment, handles: map<nat, UserHandle>, created: nat): Slot {
    if g.proxy == 0 then Slot(g.size, Owned, created)
    else Slot(g.size, Borrowed(g.proxy), if g.proxy in handles then handles[g.proxy].phys else created)
  }

  ghost function NewSlots(segments: seq<Segment>, handles: map<nat, UserHandle>, created: nat): map<nat, Slot> {
    if segments == [] then map[]
    else
      var last := segments[|segments| - 1];
      NewSlots(segments[..|segments| - 1], handles, created)[last.ptr := NewSlot(last, handles, created + |segments| - 1)]
  }

  ghost function CreateOutcome(metas: seq<HandleMeta>, i: nat, answers: nat -> Option<nat>): Outcome
    requires i < |metas|
  {
    var c := CreateFails(metas[i].size, answers(i));
    if c.Some? then Err(c.value)
    else if exists j :: 0 <= j < i && metas[j].proxy == metas[i].proxy then Panic
    else Ok(0)
  }

  ghost function SegmentOutcome(g: Segment, before: map<nat, Slot>, handles: map<nat, UserHandle>, d: Driver): Outcome {
    var c := CreateFails(g.size, d.create);
    var m := MapFails(before, g.ptr, g.size, d.map_);
    if g.proxy == 0 && c.Some? then Err(c.value)
    else if g.proxy != 0 && g.proxy !in handles then Err(InvalidValue)
    else if m.Some? then Err(m.value)
    else if d.access.Some? then Err(DriverError(d.access.value))
    else if g.ptr in before then Panic
    else Ok(0)
  }

  /** The first failure among the first `n` handles, if any. */
  ghost function HandlesOutcome(metas: seq<HandleMeta>, n: nat, answers: nat -> Option<nat>): Outcome
    requires n <= |metas|
  {
    if n == 0 then Ok(0)
    else
      var before := HandlesOutcome(metas, n - 1, answers);
      if !before.Ok? then before else CreateOutcome(metas, n - 1, answers)
  }

  ghost function SegmentsOutcome(segments: seq<Segment>, n: nat, handles: map<nat, UserHandle>, created: nat, answers: nat -> Driver): Outcome
    requires n <= |segments|
  {
    if n == 0 then Ok(0)
    else
      var before := SegmentsOutcome(segments, n - 1, handles, created, answers);
      if !before.Ok? then before
      else SegmentOutcome(segments[n - 1], NewSlots(segments[..n - 1], handles, created), handles, answers(n - 1))
  }

  datatype Answers = Answers(context: Option<nat>, creates: nat -> Option<nat>, maps: nat -> Driver)

  /** `restore`: `next` is set before the driver is asked for anything; the maps only at the end. */
  ghost function Restore(s: State, m: Meta, a: Answers): (State, Outcome) {
    if s.allocations != map[] || s.handles != map[] then (s, Err(InvalidContext))
    else if m.granularity != s.granularity || m.next > s.hi then (s, Err(InvalidValue))
    else
      var t := s.(next := m.next, created := s.created + |m.handles| + |m.segments|);
      var handles := NewHandles(m.handles, s.created);
      var h := HandlesOutcome(m.handles, |m.handles|, a.creates);
      var g := SegmentsOutcome(m.segments, |m.segments|, handles, s.created + |m.handles|, a.maps);
      if a.context.Some? then (t, Err(DriverError(a.context.value)))
      else if !h.Ok? then (t, h)
      else if !g.Ok? then (t, g)
      else (t.(handles := handles, allocations := NewSlots(m.segments, handles, s.created + |m.handles|)), Ok(0))
  }

  ghost predicate Willing(a: Answers) {
    && a.context.None?
    && (forall i :: a.creates(i).None?)
    && (forall i :: a.maps(i) == Driver(None, None, None, None))
  }

  // ---------------------------------------------------------------- restoring one's own checkpoint

  ghost predicate IncreasingProxies(metas: seq<HandleMeta>) {
    forall i, j :: 0 <= i < j < |metas| ==> metas[i].proxy < metas[j].proxy
  }

  ghost predicate IncreasingPtrs(segments: seq<Segment>) {
    forall i, j :: 0 <= i < j < |segments| ==> segments[i].ptr < segments[j].ptr
  }

  lemma {:induction false} NewHandlesAt(metas: seq<HandleMeta>, created: nat, i: nat)
    requires IncreasingProxies(metas) && i < |metas|
    ensures metas[i].proxy in NewHandles(metas, created)
    ensures NewHandles(metas, created)[metas[i].proxy] == UserHandle(created + i, metas[i].size, metas[i].prop)
  {
    if i < |metas| - 1 {
      NewHandlesAt(metas[..|metas| - 1], created, i);
    }
  }

  lemma {:induction false} NewHandlesOnly(metas: seq<HandleMeta>, created: nat, k: nat) returns (i: nat)
    requires k in NewHandles(metas, created)
    ensures i < |metas| && metas[i].proxy == k
  {
    if metas[|metas| - 1].proxy == k {
      i := |metas| - 1;
    } else {
      i := NewHandlesOnly(metas[..|metas| - 1], created, k);
    }
  }

  lemma {:induction false} NewSlotsAt(segments: seq<Segment>, handles: map<nat, UserHandle>, created: nat, i: nat)
    requires IncreasingPtrs(segments) && i < |segments|
    ensures segments[i].ptr in NewSlots(segments, handles, created)
    ensures NewSlots(segments, handles, created)[segments[i].ptr] == NewSlot(segments[i], handles, created + i)
  {
    hide NewSlot;
    if i < |segments| - 1 {
      NewSlotsAt(segments[..|segments| - 1], handles, created, i);
    }
  }

  lemma {:induction false} NewSlotsOnly(segments: seq<Segment>, handles: map<nat, UserHandle>, created: nat, p: nat) returns (i: nat)
    requires p in NewSlots(segments, handles, created)
    ensures i < |segments| && segments[i].ptr == p
  {
    hide NewSlot;
    if segments[|segments| - 1].ptr == p {
      i := |segments| - 1;
    } else {
      i := NewSlotsOnly(segments[..|segments| - 1], handles, created, p);
    }
  }

  lemma MetaAt(handles: map<nat, UserHandle>, ks: seq<nat>, i: nat)
    requires Lists(ks, handles.Keys) && i < |ks|
    ensures ks[i] in handles && HandleMetas(handles, ks)[i] == HandleMetaOf(ks[i], handles[ks[i]])
  {
    assert ks[i] in ks;
  }

  lemma SegmentIs(allocations: map<nat, Slot>, ks: seq<nat>, i: nat)
    requires Lists(ks, allocations.Keys) && i < |ks|
    ensures ks[i] in allocations && Segments(allocations, ks)[i] == SegmentOf(ks[i], allocations[ks[i]])
  {
    assert ks[i] in ks;
  }

  lemma InOrder(allocations: map<nat, Slot>, handles: map<nat, UserHandle>, ks: seq<nat>)
    requires forall i, j :: 0 <= i < j < |ks| ==> ks[i] < ks[j]
    ensures IncreasingPtrs(Segments(allocations, ks)) && IncreasingProxies(HandleMetas(handles, ks))
  {
  }

  ghost predicate At(keys: seq<nat>, i: nat, k: nat) { i < |keys| && keys[i] == k }

  lemma Position(ks: seq<nat>, keys: set<nat>, k: nat) returns (i: nat)
    requires Lists(ks, keys) && k in keys
    ensures At(ks, i, k)
  {
    assert k in ks;
    i :| 0 <= i < |ks| && ks[i] == k;
  }

  lemma HandleRestored(handles: map<nat, UserHandle>, ks: seq<nat>, created: nat, i: nat)
    requires Lists(ks, handles.Keys) && i < |ks|
    ensures var r := NewHandles(HandleMetas(handles, ks), created);
            ks[i] in handles && ks[i] in r && r[ks[i]] == UserHandle(created + i, handles[ks[i]].size, handles[ks[i]].prop.(usage := 0))
  {
    hide NewHandles;
    InOrder(map[], handles, ks);
    MetaAt(handles, ks, i);
    NewHandlesAt(HandleMetas(handles, ks), created, i);
  }

  lemma OnlyHandlesRestored(handles: map<nat, UserHandle>, ks: seq<nat>, created: nat, k: nat) returns (i: nat)
    requires k in NewHandles(HandleMetas(handles, ks), created)
    ensures At(ks, i, k)
  {
    hide NewHandles;
    i := NewHandlesOnly(HandleMetas(handles, ks), created, k);
  }

  /** The restored handles: the same proxies and properties, memory of their own. */
  lemma RestoredHandles(handles: map<nat, UserHandle>, ks: seq<nat>, created: nat)
    requires Lists(ks, handles.Keys)
    ensures var r := NewHandles(HandleMetas(handles, ks), created);
            && SameHandles(handles, r) && Injective(r)
            && forall k :: k in r ==> created <= r[k].phys < created + |ks| && r[k].prop.usage == 0
  {
    hide NewHandles, Lists, HandleMetas;
    var r := NewHandles(HandleMetas(handles, ks), created);
    forall k
      ensures k in r <==> k in handles
      ensures k in r ==> r[k].size == handles[k].size && SameProps(handles[k].prop, r[k].prop) && r[k].prop.usage == 0
      ensures k in r ==> created <= r[k].phys && At(ks, r[k].phys - created, k)
    {
      if k in r {
        var i := OnlyHandlesRestored(handles, ks, created, k);
        HandleRestored(handles, ks, created, i);
      }
      if k in handles {
        var i := Position(ks, handles.Keys, k);
        HandleRestored(handles, ks, created, i);
      }
    }
  }

  /** Where the memory of each restored mapping comes from. */
  ghost predicate FreshOwned(r: map<nat, Slot>, from: nat, to: nat) {
    && (forall p :: p in r && r[p].backing.Owned? ==> from <= r[p].phys < to)
    && (forall p, q :: p in r && q in r && p != q && r[p].backing.Owned? && r[q].backing.Owned? ==> r[p].phys != r[q].phys)
  }

  ghost predicate BorrowsFrom(r: map<nat, Slot>, handles: map<nat, UserHandle>) {
    forall p :: p in r && r[p].backing.Borrowed? && r[p].backing.proxy in handles ==>
      r[p].phys == handles[r[p].backing.proxy].phys
  }

  lemma SlotRestored(allocations: map<nat, Slot>, ks: seq<nat>, handles: map<nat, UserHandle>, created: nat, i: nat)
    requires Lists(ks, allocations.Keys) && i < |ks|
    ensures var r := NewSlots(Segments(allocations, ks), handles, created);
            ks[i] in allocations && ks[i] in r && r[ks[i]] == NewSlot(SegmentOf(ks[i], allocations[ks[i]]), handles, created + i)
  {
    hide NewSlots, NewSlot;
    InOrder(allocations, map[], ks);
    SegmentIs(allocations, ks, i);
    NewSlotsAt(Segments(allocations, ks), handles, created, i);
  }

  lemma OnlySlotsRestored(allocations: map<nat, Slot>, ks: seq<nat>, handles: map<nat, UserHandle>, created: nat, p: nat) returns (i: nat)
    requires p in NewSlots(Segments(allocations, ks), handles, created)
    ensures At(ks, i, p)
  {
    hide NewSlots, NewSlot;
    i := NewSlotsOnly(Segments(allocations, ks), handles, created, p);
  }

  lemma NewSlotIs(p: nat, slot: Slot, handles: map<nat, UserHandle>, created: nat)
    requires slot.backing.Borrowed? ==> slot.backing.proxy > 0
    ensures var r := NewSlot(SegmentOf(p, slot), handles, created);
            && r.size == slot.size && r.backing == slot.backing
            && (r.backing.Owned? ==> r.phys == created)
            && (r.backing.Borrowed? && r.backing.proxy in handles ==> r.phys == handles[r.backing.proxy].phys)
  {
  }

  lemma RestoredSlots(allocations: map<nat, Slot>, ks: seq<nat>, handles: map<nat, UserHandle>, created: nat)
    requires Mapped(allocations) && Lists(ks, allocations.Keys)
    ensures var r := NewSlots(Segments(allocations, ks), handles, created);
            SameSlots(allocations, r) && FreshOwned(r, created, created + |ks|) && BorrowsFrom(r, handles)
  {
    hide NewSlots, Lists, Segments, NewSlot, SegmentOf;
    var r := NewSlots(Segments(allocations, ks), handles, created);
    forall p
      ensures p in r <==> p in allocations
      ensures p in r ==> r[p].size == allocations[p].size && r[p].backing == allocations[p].backing
      ensures p in r && r[p].backing.Owned? ==> created <= r[p].phys && At(ks, r[p].phys - created, p)
      ensures p in r && r[p].backing.Borrowed? && r[p].backing.proxy in handles ==> r[p].phys == handles[r[p].backing.proxy].phys
    {
      if p in r {
        var i := OnlySlotsRestored(allocations, ks, handles, created, p);
        SlotRestored(allocations, ks, handles, created, i);
      }
      if p in allocations {
        var i := Position(ks, allocations.Keys, p);
        SlotRestored(allocations, ks, handles, created, i);
        NewSlotIs(p, allocations[p], handles, created + i);
      }
    }
  }

  /** Every mapping that borrows names a user handle that still exists. */
  ghost predicate Present(allocations: map<nat, Slot>, handles: map<nat, UserHandle>) {
    forall p :: p in allocations && allocations[p].backing.Borrowed? ==> allocations[p].backing.proxy in handles
  }

  /** Every borrowed proxy is live: it still names the handle whose memory is mapped. */
  ghost predicate Live(allocations: map<nat, Slot>, handles: map<nat, UserHandle>) {
    forall p :: p in allocations && allocations[p].backing.Borrowed? ==>
      && allocations[p].backing.proxy in handles
      && allocations[p].phys == handles[allocations[p].backing.proxy].phys
  }

  /** The restored mappings alias as the original ones did exactly when every borrowed proxy is live. */
  lemma AliasesSurvive(a: map<nat, Slot>, ha: map<nat, UserHandle>, n: nat, b: map<nat, Slot>, hb: map<nat, UserHandle>, m: nat, to: nat)
    requires PhysOk(a, ha, n) && HandlesOk(ha, n) && Present(a, ha)
    requires SameSlots(a, b) && SameHandles(ha, hb) && Injective(hb)
    requires FreshOwned(b, m, to) && BorrowsFrom(b, hb) && forall k :: k in hb ==> hb[k].phys < m
    ensures SameAliases(a, b) && SameSources(a, ha, b, hb) <==> Live(a, ha)
  {
    if SameSources(a, ha, b, hb) {
      assert Live(a, ha);
    }
    if Live(a, ha) {
      assert SameAliases(a, b);
      assert SameSources(a, ha, b, hb);
    }
  }

  /** A willing driver creates every handle. */
  lemma {:induction false} HandlesSucceed(handles: map<nat, UserHandle>, ks: seq<nat>, created: nat, n: nat, answers: nat -> Option<nat>)
    requires HandlesOk(handles, created) && Lists(ks, handles.Keys) && n <= |ks| && forall i :: answers(i).None?
    ensures HandlesOutcome(HandleMetas(handles, ks), n, answers) == Ok(0)
  {
    if n > 0 {
      HandlesSucceed(handles, ks, created, n - 1, answers);
      var metas := HandleMetas(handles, ks);
      MetaAt(handles, ks, n - 1);
      forall j | 0 <= j < n - 1 ensures metas[j].proxy != metas[n - 1].proxy { MetaAt(handles, ks, j); }
    }
  }

  ghost predicate PresentUpTo(segments: seq<Segment>, n: nat, handles: map<nat, UserHandle>)
    requires n <= |segments|
  {
    forall i :: 0 <= i < n && segments[i].proxy != 0 ==> segments[i].proxy in handles
  }

  /** The mappings made so far leave the next segment's range free. */
  lemma NextIsFree(allocations: map<nat, Slot>, ks: seq<nat>, handles: map<nat, UserHandle>, created: nat, n: nat)
    requires Mapped(allocations) && Lists(ks, allocations.Keys) && n < |ks|
    ensures var segments := Segments(allocations, ks);
            var before := NewSlots(segments[..n], handles, created);
            segments[n].size > 0 && Free(before, segments[n].ptr, segments[n].size) && segments[n].ptr !in before
  {
    hide NewSlots;
    var segments := Segments(allocations, ks);
    var before := NewSlots(segments[..n], handles, created);
    SegmentIs(allocations, ks, n);
    forall q | q in before
      ensures q != segments[n].ptr && Apart(segments[n].ptr, segments[n].size, q, before[q].size)
    {
      ApartFromEarlier(allocations, ks, handles, created, n, q);
    }
  }

  lemma ApartFromEarlier(allocations: map<nat, Slot>, ks: seq<nat>, handles: map<nat, UserHandle>, created: nat, n: nat, q: nat)
    requires Mapped(allocations) && Lists(ks, allocations.Keys) && n < |ks|
    requires q in NewSlots(Segments(allocations, ks)[..n], handles, created)
    ensures var segments := Segments(allocations, ks);
            var before := NewSlots(segments[..n], handles, created);
            q != segments[n].ptr && Apart(segments[n].ptr, segments[n].size, q, before[q].size)
  {
    hide NewSlots;
    var segments := Segments(allocations, ks);
    var i := NewSlotsOnly(segments[..n], handles, created, q);
    InOrder(allocations, map[], ks);
    NewSlotsAt(segments[..n], handles, created, i);
    SegmentIs(allocations, ks, i);
    SegmentIs(allocations, ks, n);
  }

  /** A willing driver maps every segment, up to the first whose user handle is missing. */
  lemma {:induction false} SegmentsSucceed(allocations: map<nat, Slot>, ks: seq<nat>, handles: map<nat, UserHandle>, created: nat,
                                           n: nat, answers: nat -> Driver)
    requires Mapped(allocations) && Lists(ks, allocations.Keys) && n <= |ks|
    requires forall i :: answers(i) == Driver(None, None, None, None)
    ensures var segments := Segments(allocations, ks);
            SegmentsOutcome(segments, n, handles, created, answers) ==
            if PresentUpTo(segments, n, handles) then Ok(0) else Err(InvalidValue)
  {
    hide NewSlots, Free, Mapped, Lists;
    if n > 0 {
      SegmentsSucceed(allocations, ks, handles, created, n - 1, answers);
      NextIsFree(allocations, ks, handles, created, n - 1);
    }
  }

  lemma PresentIsPresent(allocations: map<nat, Slot>, ks: seq<nat>, handles: map<nat, UserHandle>, restored: map<nat, UserHandle>)
    requires Mapped(allocations) && Lists(ks, allocations.Keys) && restored.Keys == handles.Keys
    ensures PresentUpTo(Segments(allocations, ks), |ks|, restored) <==> Present(allocations, handles)
  {
    hide Lists;
    var segments := Segments(allocations, ks);
    if PresentUpTo(segments, |ks|, restored) {
      forall p | p in allocations && allocations[p].backing.Borrowed? ensures allocations[p].backing.proxy in handles {
        var i := Position(ks, allocations.Keys, p);
        SegmentIs(allocations, ks, i);
      }
    }
    if Present(allocations, handles) {
      forall i | 0 <= i < |ks| && segments[i].proxy != 0 ensures segments[i].proxy in restored {
        SegmentIs(allocations, ks, i);
      }
    }
  }

  lemma RestoredInv(a: map<nat, Slot>, ha: map<nat, UserHandle>, n: nat, b: map<nat, Slot>, hb: map<nat, UserHandle>, m: nat, to: nat)
    requires Mapped(a) && HandlesOk(ha, n) && Present(a, ha) && m <= to
    requires SameSlots(a, b) && SameHandles(ha, hb) && Injective(hb)
    requires FreshOwned(b, m, to) && BorrowsFrom(b, hb) && forall k :: k in hb ==> hb[k].phys < m
    ensures Mapped(b) && HandlesOk(hb, to) && PhysOk(b, hb, to)
  {
  }

  /** A worker before its first allocation. */
  ghost predicate Blank(s: State, t: State) {
    Inv(t) && t.allocations == map[] && t.handles == map[] && t.granularity == s.granularity && t.hi == s.hi
  }

  ghost function RestoredState(s: State, blank: State): State {
    var ks, ps := Sorted(s.handles.Keys), Sorted(s.allocations.Keys);
    var handles := NewHandles(HandleMetas(s.handles, ks), blank.created);
    blank.(next := s.next, created := blank.created + |ks| + |ps|,
           handles := handles, allocations := NewSlots(Segments(s.allocations, ps), handles, blank.created + |ks|))
  }

  lemma RestoredCounts(s: State, blank: State, a: Answers)
    requires Inv(s) && Blank(s, blank) && Willing(a)
    ensures var (t, r) := Restore(blank, Checkpoint(s), a);
            if Present(s.allocations, s.handles) then r == Ok(0) && t == RestoredState(s, blank)
            else r == Err(InvalidValue) && t == blank.(next := s.next, created := RestoredState(s, blank).created)
  {
    hide NewHandles, NewSlots, Sorted, Mapped, PhysOk, Present, PresentUpTo, HandlesOutcome, SegmentsOutcome, Lists;
    var ks, ps := Sorted(s.handles.Keys), Sorted(s.allocations.Keys);
    SortedLists(s.handles.Keys);
    SortedLists(s.allocations.Keys);
    var handles := NewHandles(HandleMetas(s.handles, ks), blank.created);
    RestoredHandles(s.handles, ks, blank.created);
    HandlesSucceed(s.handles, ks, s.created, |ks|, a.creates);
    SegmentsSucceed(s.allocations, ps, handles, blank.created + |ks|, |ps|, a.maps);
    PresentIsPresent(s.allocations, ps, s.handles, handles);
  }

  lemma RestoredIs(s: State, blank: State)
    requires Inv(s) && Blank(s, blank) && Present(s.allocations, s.handles)
    ensures Inv(RestoredState(s, blank)) && Alike(s, RestoredState(s, blank))
    ensures Same(s, RestoredState(s, blank)) <==> Live(s.allocations, s.handles)
  {
    hide NewHandles, NewSlots, Sorted, Mapped, HandlesOk, PhysOk, Present, Live, Lists, Segments, HandleMetas;
    hide SameSlots, SameHandles, SameAliases, SameSources, FreshOwned, BorrowsFrom, Injective;
    var t := RestoredState(s, blank);
    var ks, ps := Sorted(s.handles.Keys), Sorted(s.allocations.Keys);
    var base := blank.created + |ks|;
    SortedLists(s.handles.Keys);
    SortedLists(s.allocations.Keys);
    RestoredHandles(s.handles, ks, blank.created);
    RestoredSlots(s.allocations, ps, t.handles, base);
    RestoredInv(s.allocations, s.handles, s.created, t.allocations, t.handles, base, t.created);
    AliasesSurvive(s.allocations, s.handles, s.created, t.allocations, t.handles, base, t.created);
  }

  lemma BlankInv(blank: State, next: nat, created: nat)
    requires Inv(blank) && blank.allocations == map[] && blank.handles == map[] && next <= blank.hi
    ensures Inv(blank.(next := next, created := created))
  {
  }

  lemma LiveIsPresent(allocations: map<nat, Slot>, handles: map<nat, UserHandle>)
    ensures Live(allocations, handles) ==> Present(allocations, handles)
  {
  }

  /** Main result. With a driver that agrees, restoring a manager's own checkpoint into a blank one
      succeeds exactly when every borrowed proxy still exists. A manager so restored answers every
      later sequence of calls as the original would, with the same addresses, proxies and error
      codes, whatever the driver answers. Mappings and handles share memory as in the original
      exactly when every borrowed proxy is live, and then keep doing so over every such sequence. */
  lemma RestoreIsFaithful(s: State, blank: State, a: Answers)
    requires Inv(s) && Blank(s, blank) && Willing(a)
    ensures var (t, r) := Restore(blank, Checkpoint(s), a);
            && r == (if Present(s.allocations, s.handles) then Ok(0) else Err(InvalidValue))
            && Inv(t)
            && (r.Ok? ==> forall calls :: Run(s, calls).1 == Run(t, calls).1)
            && (r.Ok? ==> (Same(s, t) <==> Live(s.allocations, s.handles)))
            && (Live(s.allocations, s.handles) ==> r.Ok? && forall calls :: Same(Run(s, calls).0, Run(t, calls).0))
  {
    hide Restore, Checkpoint, Same, Alike, Live, Present, Mapped, HandlesOk, PhysOk, RestoredState, Willing, Run;
    RestoredCounts(s, blank, a);
    LiveIsPresent(s.allocations, s.handles);
    var t := Restore(blank, Checkpoint(s), a).0;
    if Present(s.allocations, s.handles) {
      RestoredIs(s, blank);
      forall calls ensures Run(s, calls).1 == Run(t, calls).1 { RunAlike(s, t, calls); }
      if Live(s.allocations, s.handles) {
        forall calls ensures Same(Run(s, calls).0, Run(t, calls).0) { RunSame(s, t, calls); }
      }
    } else {
      BlankInv(blank, s.next, RestoredState(s, blank).created);
    }
  }

  lemma RunNext(s: State, calls: seq<(Op, Driver)>, op: Op, d: Driver)
    requires Inv(s)
    ensures Run(s, calls + [(op, d)]).0 == Step(Run(s, calls).0, op, d).0
  {
    assert (calls + [(op, d)])[..|calls|] == calls;
  }

  /** A driver that agrees to everything. */
  const IDLE: Driver := Driver(None, None, None, None)

  lemma CreatedFirst(s: State, size: nat, prop: Prop)
    requires s.handles == map[] && size > 0
    ensures Create(s, size, prop, IDLE).0 == s.(handles := map[1 := UserHandle(s.created, size, prop)], created := s.created + 1)
  {
  }

  lemma MappedFirst(s: State, ptr: nat, size: nat)
    requires s.allocations == map[] && 1 in s.handles && size > 0
    ensures Map(s, ptr, size, 1, IDLE).0 == s.(allocations := map[ptr := Slot(size, Borrowed(1), s.handles[1].phys)])
  {
  }

  /** Releasing a handle that is still mapped, and creating another, makes the borrowed proxy name
      other memory: the restore goes through, and where the original mapping and the new handle were
      separate memory the restored ones are the same. */
  lemma ReusedProxyBreaksRestore(s: State, blank: State, a: Answers, size: nat, prop: Prop) returns (calls: seq<(Op, Driver)>)
    requires Inv(s) && s.allocations == map[] && s.handles == map[] && size > 0 && Blank(s, blank) && Willing(a)
    ensures var t := Run(s, calls).0; var (restored, r) := Restore(blank, Checkpoint(t), a);
            r.Ok? && !Same(t, restored)
  {
    hide Inv, Create, Map, Run, Restore, Checkpoint, Same, Willing;
    assert Run(s, []).0 == s by { RunNothing(s); }
    var create, bind, release := (DoCreate(size, prop), IDLE), (DoMap(s.lo, size, 1), IDLE), (DoRelease(1), IDLE);
    calls := [] + [create] + [bind] + [release] + [create];
    RunNext(s, [], create.0, create.1);
    RunNext(s, [] + [create], bind.0, bind.1);
    RunNext(s, [] + [create] + [bind], release.0, release.1);
    RunNext(s, [] + [create] + [bind] + [release], create.0, create.1);
    CreatedFirst(s, size, prop);
    var s1 := Create(s, size, prop, IDLE).0;
    MappedFirst(s1, s.lo, size);
    var s2 := Map(s1, s.lo, size, 1, IDLE).0;
    var s3 := ReleaseUser(s2, 1, IDLE).0;
    assert s3.handles == map[];
    CreatedFirst(s3, size, prop);
    var t := Create(s3, size, prop, IDLE).0;
    assert s.lo in t.allocations;
    assert Present(t.allocations, t.handles) && !Live(t.allocations, t.handles);
    assert Run(s, calls).0 == t;
    RestoreIsFaithful(t, blank, a);
  }

  lemma RunNothing(s: State)
    requires Inv(s)
    ensures Run(s, []).0 == s
  {
  }
}
