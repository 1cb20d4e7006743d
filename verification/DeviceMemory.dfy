/** The device memory manager as a value: a bump allocator over a reserved address range, mappings
    that own their memory or borrow it from a user handle, and the driver contract underneath. */
module DeviceMemory {
  import opened Options

  const WORDS: nat := 0x1_0000_0000_0000_0000

  datatype Error = OutOfMemory | InvalidValue | AlreadyMapped | InvalidContext | DriverError(code: nat)
  datatype Outcome = Ok(value: nat) | Err(error: Error) | Panic

  datatype Backing = Owned | Borrowed(proxy: nat)

  /** A mapping at its address; `phys` names the physical memory behind it. */
  datatype Slot = Slot(size: nat, backing: Backing, phys: nat)

  /** The properties of a user handle; a checkpoint keeps all but `usage`. */
  datatype Prop = Prop(handleTypes: nat, compression: nat, rdma: nat, usage: nat)

  datatype UserHandle = UserHandle(phys: nat, size: nat, prop: Prop)

  datatype State = State(
    granularity: nat, lo: nat, hi: nat, next: nat,
    allocations: map<nat, Slot>, handles: map<nat, UserHandle>,
    created: nat)                                     // physical allocations the driver has made

  // ---------------------------------------------------------------- the driver

  /** What the driver answers, call by call, beyond what it must refuse. */
  datatype Driver = Driver(context: Option<nat>, create: Option<nat>, map_: Option<nat>, access: Option<nat>)

  function Failure(answer: Option<nat>): Option<Error> {
    match answer case None => None case Some(code) => Some(DriverError(code))
  }

  /** `cuMemCreate` refuses size 0. */
  function CreateFails(size: nat, answer: Option<nat>): Option<Error> {
    if size == 0 then Some(InvalidValue) else Failure(answer)
  }

  predicate Apart(p: nat, m: nat, q: nat, n: nat) { p + m <= q || q + n <= p }

  predicate Free(allocations: map<nat, Slot>, ptr: nat, size: nat) {
    forall q :: q in allocations ==> Apart(ptr, size, q, allocations[q].size)
  }

  /** `cuMemMap` refuses size 0 and ranges that overlap a mapping. */
  function MapFails(allocations: map<nat, Slot>, ptr: nat, size: nat, answer: Option<nat>): Option<Error> {
    if size == 0 || !Free(allocations, ptr, size) then Some(InvalidValue) else Failure(answer)
  }

  // ---------------------------------------------------------------- operations

  function RoundUp(n: nat, g: nat): nat
    requires g > 0
  {
    if n % g == 0 then n else n + (g - n % g)
  }

  /** `next_multiple_of` on 64-bit words. */
  function NextMultiple(n: nat, g: nat): nat
    requires g > 0
  {
    RoundUp(n, g) % WORDS
  }

  function Reserve(s: State, size: nat): (State, Outcome) {
    var end := (s.next + size) % WORDS;
    if end > s.hi then (s, Err(OutOfMemory)) else (s.(next := end), Ok(s.next))
  }

  function ReserveAddress(s: State, size: nat, alignment: nat): (State, Outcome)
    requires s.granularity > 0
  {
    if alignment != 0 && s.granularity % alignment != 0 then (s, Panic)
    else Reserve(s, NextMultiple(size, s.granularity))
  }

  ghost function Allocate(s: State, size: nat, d: Driver): (State, Outcome)
    requires s.granularity > 0
  {
    var n := NextMultiple(size, s.granularity);
    var (t, r) := Reserve(s, n);
    if !r.Ok? then (t, r)
    else if d.context.Some? then (t, Err(DriverError(d.context.value)))
    else AllocateAt(t, r.value, n, d)
  }

  /** Creating, mapping and granting access; what was made is undone if a later step fails. */
  ghost function AllocateAt(s: State, ptr: nat, n: nat, d: Driver): (State, Outcome) {
    var c := CreateFails(n, d.create);
    if c.Some? then (s, Err(c.value))
    else
      var t := s.(created := s.created + 1);
      var m := MapFails(s.allocations, ptr, n, d.map_);
      if m.Some? then (t, Err(m.value))
      else if d.access.Some? then (t, Err(DriverError(d.access.value)))
      else if ptr in s.allocations then (t, Panic)
      else (t.(allocations := s.allocations[ptr := Slot(n, Owned, s.created)]), Ok(ptr))
  }

  function Release(s: State, ptr: nat, d: Driver): (State, Outcome)
    requires ptr in s.allocations
  {
    (s.(allocations := s.allocations - {ptr}), if d.context.Some? then Err(DriverError(d.context.value)) else Ok(0))
  }

  function FreePtr(s: State, ptr: nat, d: Driver): (State, Outcome) {
    if ptr == 0 then (s, Ok(0))
    else if ptr !in s.allocations then (s, Err(InvalidValue))
    else Release(s, ptr, d)
  }

  ghost predicate IsMax(keys: set<nat>, k: nat) { k in keys && forall j :: j in keys ==> j <= k }

  lemma {:induction false} MaxExists(keys: set<nat>)
    requires keys != {}
    ensures exists k :: IsMax(keys, k)
  {
    var x :| x in keys;
    var rest := keys - {x};
    if rest == {} {
      assert keys == {x};
      assert IsMax(keys, x);
    } else {
      MaxExists(rest);
      var y :| IsMax(rest, y);
      assert forall j :: j in keys ==> j in rest || j == x;
      assert IsMax(keys, if x > y then x else y);
    }
  }

  ghost function Max(keys: set<nat>): (k: nat)
    requires keys != {}
    ensures IsMax(keys, k)
  {
    MaxExists(keys);
    var k :| IsMax(keys, k);
    k
  }

  /** One more than the largest proxy in use. */
  ghost function NewProxy(keys: set<nat>): (p: nat)
    ensures p > 0 && p !in keys && forall k :: k in keys ==> k < p
  {
    if keys == {} then 1 else Max(keys) + 1
  }

  ghost function Create(s: State, size: nat, prop: Prop, d: Driver): (State, Outcome) {
    var proxy := NewProxy(s.handles.Keys);
    var c := CreateFails(size, d.create);
    if d.context.Some? then (s, Err(DriverError(d.context.value)))
    else if c.Some? then (s, Err(c.value))
    else (s.(handles := s.handles[proxy := UserHandle(s.created, size, prop)], created := s.created + 1), Ok(proxy))
  }

  ghost function Map(s: State, ptr: nat, size: nat, proxy: nat, d: Driver): (State, Outcome) {
    if proxy !in s.handles then (s, Err(InvalidValue))
    else if ptr in s.allocations then (s, Err(AlreadyMapped))
    else if d.context.Some? then (s, Err(DriverError(d.context.value)))
    else
      var m := MapFails(s.allocations, ptr, size, d.map_);
      if m.Some? then (s, Err(m.value))
      else (s.(allocations := s.allocations[ptr := Slot(size, Borrowed(proxy), s.handles[proxy].phys)]), Ok(0))
  }

  function Unmap(s: State, ptr: nat, size: nat, d: Driver): (State, Outcome) {
    if ptr !in s.allocations || s.allocations[ptr].backing.Owned? || s.allocations[ptr].size != size
    then (s, Err(InvalidValue))
    else Release(s, ptr, d)
  }

  function ReleaseUser(s: State, proxy: nat, d: Driver): (State, Outcome) {
    if proxy !in s.handles then (s, Err(InvalidValue))
    else (s.(handles := s.handles - {proxy}), if d.context.Some? then Err(DriverError(d.context.value)) else Ok(0))
  }

  datatype Op =
    | DoAllocate(size: nat) | DoReserve(size: nat, alignment: nat) | DoFree(ptr: nat)
    | DoCreate(size: nat, prop: Prop) | DoMap(ptr: nat, size: nat, proxy: nat)
    | DoUnmap(ptr: nat, size: nat) | DoRelease(proxy: nat)

  ghost function Step(s: State, op: Op, d: Driver): (State, Outcome)
    requires s.granularity > 0
  {
    match op
    case DoAllocate(size) => Allocate(s, size, d)
    case DoReserve(size, alignment) => ReserveAddress(s, size, alignment)
    case DoFree(ptr) => FreePtr(s, ptr, d)
    case DoCreate(size, prop) => Create(s, size, prop, d)
    case DoMap(ptr, size, proxy) => Map(s, ptr, size, proxy, d)
    case DoUnmap(ptr, size) => Unmap(s, ptr, size, d)
    case DoRelease(proxy) => ReleaseUser(s, proxy, d)
  }

  // ---------------------------------------------------------------- the invariant

  /** Mappings are non-empty, pairwise disjoint, and borrow from positive proxies. */
  ghost predicate Mapped(allocations: map<nat, Slot>) {
    && (forall p :: p in allocations ==> allocations[p].size > 0)
    && (forall p :: p in allocations && allocations[p].backing.Borrowed? ==> allocations[p].backing.proxy > 0)
    && (forall p, q :: p in allocations && q in allocations && p != q ==>
          Apart(p, allocations[p].size, q, allocations[q].size))
  }

  ghost predicate HandlesOk(handles: map<nat, UserHandle>, created: nat) {
    && (forall k :: k in handles ==> k > 0 && handles[k].size > 0 && handles[k].phys < created)
    && (forall j, k :: j in handles && k in handles && j != k ==> handles[j].phys != handles[k].phys)
  }

  /** Owned memory is nobody else's. */
  ghost predicate PhysOk(allocations: map<nat, Slot>, handles: map<nat, UserHandle>, created: nat) {
    && (forall p :: p in allocations ==> allocations[p].phys < created)
    && (forall p, q :: p in allocations && q in allocations && p != q && allocations[p].backing.Owned? ==>
          allocations[p].phys != allocations[q].phys)
    && (forall p, k :: p in allocations && k in handles && allocations[p].backing.Owned? ==>
          allocations[p].phys != handles[k].phys)
  }

  ghost predicate Inv(s: State) {
    && 0 < s.granularity && s.lo <= s.hi < WORDS && s.next <= s.hi
    && Mapped(s.allocations) && HandlesOk(s.handles, s.created) && PhysOk(s.allocations, s.handles, s.created)
  }

  /** Because the driver refuses overlap, no allocation ever lands on an occupied slot. */
  lemma FreeIsVacant(allocations: map<nat, Slot>, ptr: nat, size: nat)
    requires Mapped(allocations) && size > 0 && Free(allocations, ptr, size)
    ensures ptr !in allocations
  {
    assert ptr in allocations ==> Apart(ptr, size, ptr, allocations[ptr].size);
  }

  lemma Inserted(allocations: map<nat, Slot>, ptr: nat, slot: Slot)
    requires Mapped(allocations) && Free(allocations, ptr, slot.size) && slot.size > 0
    requires slot.backing.Borrowed? ==> slot.backing.proxy > 0
    ensures Mapped(allocations[ptr := slot])
  {
  }

  lemma OwnedInserted(allocations: map<nat, Slot>, handles: map<nat, UserHandle>, created: nat, ptr: nat, n: nat)
    requires PhysOk(allocations, handles, created) && HandlesOk(handles, created)
    ensures PhysOk(allocations[ptr := Slot(n, Owned, created)], handles, created + 1)
  {
  }

  lemma BorrowedInserted(allocations: map<nat, Slot>, handles: map<nat, UserHandle>, created: nat, ptr: nat, n: nat, proxy: nat)
    requires PhysOk(allocations, handles, created) && HandlesOk(handles, created) && proxy in handles
    ensures PhysOk(allocations[ptr := Slot(n, Borrowed(proxy), handles[proxy].phys)], handles, created)
  {
  }

  lemma MoreCreated(allocations: map<nat, Slot>, handles: map<nat, UserHandle>, created: nat)
    requires PhysOk(allocations, handles, created) && HandlesOk(handles, created)
    ensures PhysOk(allocations, handles, created + 1) && HandlesOk(handles, created + 1)
  {
  }

  lemma HandleCreated(allocations: map<nat, Slot>, handles: map<nat, UserHandle>, created: nat, k: nat, size: nat, prop: Prop)
    requires PhysOk(allocations, handles, created) && HandlesOk(handles, created) && k > 0 && size > 0 && k !in handles
    ensures var handles' := handles[k := UserHandle(created, size, prop)];
            PhysOk(allocations, handles', created + 1) && HandlesOk(handles', created + 1)
  {
  }

  lemma Shrunk(allocations: map<nat, Slot>, handles: map<nat, UserHandle>, created: nat, ptr: nat, k: nat)
    requires Mapped(allocations) && PhysOk(allocations, handles, created) && HandlesOk(handles, created)
    ensures Mapped(allocations - {ptr}) && PhysOk(allocations - {ptr}, handles, created)
    ensures PhysOk(allocations, handles - {k}, created) && HandlesOk(handles - {k}, created)
  {
  }

  lemma AllocateAtKeeps(s: State, ptr: nat, n: nat, d: Driver)
    requires Inv(s)
    ensures Inv(AllocateAt(s, ptr, n, d).0) && !AllocateAt(s, ptr, n, d).1.Panic?
  {
    hide Mapped, HandlesOk, PhysOk, Free;
    MoreCreated(s.allocations, s.handles, s.created);
    if n > 0 && Free(s.allocations, ptr, n) {
      FreeIsVacant(s.allocations, ptr, n);
      Inserted(s.allocations, ptr, Slot(n, Owned, s.created));
      OwnedInserted(s.allocations, s.handles, s.created, ptr, n);
    }
  }

  lemma MapKeeps(s: State, ptr: nat, size: nat, proxy: nat, d: Driver)
    requires Inv(s)
    ensures Inv(Map(s, ptr, size, proxy, d).0) && !Map(s, ptr, size, proxy, d).1.Panic?
  {
    assert proxy in s.handles ==> proxy > 0;
    hide Mapped, HandlesOk, PhysOk, Free;
    if proxy in s.handles && size > 0 && Free(s.allocations, ptr, size) {
      Inserted(s.allocations, ptr, Slot(size, Borrowed(proxy), s.handles[proxy].phys));
      BorrowedInserted(s.allocations, s.handles, s.created, ptr, size, proxy);
    }
  }

  /** Every operation, under every answer of the driver, keeps the invariant; the only panic is the
      alignment check of `reserve_address`. */
  lemma StepKeeps(s: State, op: Op, d: Driver)
    requires Inv(s)
    ensures Inv(Step(s, op, d).0)
    ensures Step(s, op, d).1.Panic? ==> op.DoReserve? && op.alignment != 0 && s.granularity % op.alignment != 0
  {
    hide Mapped, HandlesOk, PhysOk, Free, AllocateAt, Map, RoundUp;
    match op
    case DoAllocate(size) =>
      var n := NextMultiple(size, s.granularity);
      AllocateAtKeeps(Reserve(s, n).0, s.next, n, d);
    case DoReserve(size, alignment) =>
    case DoFree(ptr) => Shrunk(s.allocations, s.handles, s.created, ptr, 0);
    case DoCreate(size, prop) =>
      if size > 0 { HandleCreated(s.allocations, s.handles, s.created, NewProxy(s.handles.Keys), size, prop); }
    case DoMap(ptr, size, proxy) => MapKeeps(s, ptr, size, proxy, d);
    case DoUnmap(ptr, size) => Shrunk(s.allocations, s.handles, s.created, ptr, 0);
    case DoRelease(proxy) => Shrunk(s.allocations, s.handles, s.created, 0, proxy);
  }

  // ---------------------------------------------------------------- what one call undoes of another

  /** Freeing an allocation takes back exactly its mapping; its addresses are not used again. */
  lemma FreeUndoesAllocate(s: State, size: nat, d: Driver, e: Driver)
    requires Inv(s) && Allocate(s, size, d).1.Ok? && Allocate(s, size, d).1.value != 0
    ensures var (t, r) := Allocate(s, size, d); var (u, f) := FreePtr(t, r.value, e);
            && u == t.(allocations := s.allocations)
            && (f.Ok? <==> e.context.None?)
            && FreePtr(u, r.value, e).1 == Err(InvalidValue)
  {
    hide Mapped, HandlesOk, PhysOk, Free, RoundUp;
    var (t, r) := Allocate(s, size, d);
    var n := NextMultiple(size, s.granularity);
    assert s.next !in s.allocations by { FreeIsVacant(s.allocations, s.next, n); }
    assert t.allocations - {r.value} == s.allocations;
  }

  /** Unmapping what was mapped, with the size it was mapped with, gives the manager as it was; any
      other size, or a mapping that owns its memory, is refused and changes nothing. */
  lemma UnmapUndoesMap(s: State, ptr: nat, size: nat, proxy: nat, d: Driver, e: Driver, other: nat)
    requires Map(s, ptr, size, proxy, d).1.Ok?
    ensures var t := Map(s, ptr, size, proxy, d).0;
            && Unmap(t, ptr, size, e).0 == s
            && (other != size ==> Unmap(t, ptr, other, e) == (t, Err(InvalidValue)))
            && forall p :: p in s.allocations && s.allocations[p].backing.Owned? ==> Unmap(t, p, other, e) == (t, Err(InvalidValue))
  {
    hide Free;
    assert Map(s, ptr, size, proxy, d).0.allocations - {ptr} == s.allocations;
  }

  /** Releasing a handle just created gives the manager's handles as they were, and the next handle
      gets the released number again: proxies are not unique over time. */
  lemma ReleaseUndoesCreate(s: State, size: nat, prop: Prop, d: Driver, e: Driver)
    requires Create(s, size, prop, d).1.Ok?
    ensures var (t, r) := Create(s, size, prop, d); var u := ReleaseUser(t, r.value, e).0;
            && u == s.(created := s.created + 1)
            && Create(u, size, prop, d).1 == r
  {
    var (t, r) := Create(s, size, prop, d);
    assert t.handles - {r.value} == s.handles;
  }
}
