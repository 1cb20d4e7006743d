/** The kernel table of a worker: modules by hash, the attached client's active list, and the two ways
    to take over a parked client, cold restore into an empty table and warm attach on a standby. */
module Kernels {
  import opened Bytes
  import opened Options

  type Image = seq<Byte>
  type Hash = Image -> nat

  /** A parked client's kernels: the active list, and the image behind every hash on it. */
  datatype Checkpoint = Checkpoint(active: seq<nat>, functions: set<(nat, nat)>, modules: map<nat, Image>)

  datatype Table = Table(all: map<nat, Image>, active: seq<nat>, functions: set<(nat, nat)>)

  const EMPTY: Table := Table(map[], [], {})

  // ---------------------------------------------------------------- operations on a value

  /** `register_module` keeps what is there: the first image under a hash wins. */
  function Registered(all: map<nat, Image>, modules: map<nat, Image>): map<nat, Image> { modules + all }

  function Loaded(t: Table, hash: Hash, image: Image): Table {
    t.(all := Registered(t.all, map[hash(image) := image]), active := t.active + [hash(image)])
  }

  /** Every active hash has its module: what `checkpoint` unwraps. */
  ghost predicate Known(t: Table) { forall h :: h in t.active ==> h in t.all }

  ghost function Saved(t: Table): Checkpoint
    requires Known(t)
  {
    Checkpoint(t.active, t.functions, map h | h in t.active :: t.all[h])
  }

  /** Cold: into an empty table. */
  function Restored(c: Checkpoint): Table { Table(c.modules, c.active, {}) }

  /** Warm: only the active list moves; modules must be there already. */
  function Attached(t: Table, c: Checkpoint): Table { t.(active := c.active, functions := {}) }

  /** A function looked up in a module. */
  function Found(t: Table, module_: nat, name: nat): Table { t.(functions := t.functions + {(module_, name)}) }

  // ---------------------------------------------------------------- the manager

  ghost predicate AddedSoFar(was: map<nat, Image>, now: map<nat, Image>, modules: map<nat, Image>, todo: set<nat>) {
    && (forall h :: h in now <==> h in was || (h in modules && h !in todo))
    && (forall h :: h in now ==> now[h] == if h in was then was[h] else modules[h])
  }

  lemma AddedNext(was: map<nat, Image>, now: map<nat, Image>, modules: map<nat, Image>, todo: set<nat>, h: nat)
    requires AddedSoFar(was, now, modules, todo) && h in todo && h in modules
    ensures h in now <==> h in was
    ensures AddedSoFar(was, Registered(now, map[h := modules[h]]), modules, todo - {h})
  {
  }

  class Manager {
    const hash: Hash
    var allModules: map<nat, Image>
    var activeModules: seq<nat>
    var functions: set<(nat, nat)>

    ghost function Value(): Table
      reads this
    {
      Table(allModules, activeModules, functions)
    }

    constructor (hash: Hash)
      ensures Value() == EMPTY && this.hash == hash
    {
      this.hash := hash;
      allModules, activeModules, functions := map[], [], {};
    }

    /** `register_module`; false if the driver does not load the image. */
    method RegisterModule(h: nat, image: Image, loads: Image -> bool) returns (ok: bool)
      modifies this`allModules
      ensures ok <==> h in old(allModules) || loads(image)
      ensures allModules == if ok then Registered(old(allModules), map[h := image]) else old(allModules)
    {
      if h !in allModules {
        if !loads(image) { return false; }
        allModules := allModules[h := image];
      }
      ok := true;
    }

    /** `load_module`: the hash is the handle the client gets. */
    method LoadModule(image: Image, loads: Image -> bool) returns (r: Option<nat>)
      modifies this`allModules, this`activeModules
      ensures r == if hash(image) in old(allModules) || loads(image) then Some(hash(image)) else None
      ensures Value() == if r.Some? then Loaded(old(Value()), hash, image) else old(Value())
    {
      var h := hash(image);
      var ok := RegisterModule(h, image, loads);
      if !ok { return None; }
      activeModules := activeModules + [h];
      r := Some(h);
    }

    /** `cu_module_get_function`; None is the panic on an unknown module. */
    method GetFunction(module_: nat, name: nat, found: bool) returns (r: Option<bool>)
      modifies this`functions
      ensures r == if module_ in allModules then Some(found) else None
      ensures Value() == if r == Some(true) then Found(old(Value()), module_, name) else old(Value())
    {
      if module_ !in allModules { return None; }
      if found { functions := functions + {(module_, name)}; }
      r := Some(found);
    }

    /** `checkpoint`; None is the panic on an active hash without a module. */
    method TakeCheckpoint() returns (c: Option<Checkpoint>)
      ensures c.Some? <==> Known(Value())
      ensures c.Some? ==> c.value == Saved(Value())
    {
      var modules: map<nat, Image> := map[];
      for i := 0 to |activeModules|
        invariant modules.Keys == (set h | h in activeModules[..i])
        invariant forall h :: h in modules ==> h in allModules && modules[h] == allModules[h]
      {
        var h := activeModules[i];
        assert h in activeModules;
        assert activeModules[..i + 1] == activeModules[..i] + [h];
        if h !in allModules { return None; }
        modules := modules[h := allModules[h]];
      }
      assert activeModules[..|activeModules|] == activeModules;
      c := Some(Checkpoint(activeModules, functions, modules));
      assert modules == Saved(Value()).modules;
    }

    /** `register_modules`; false at the first image the driver does not load. */
    method RegisterModules(modules: map<nat, Image>, loads: Image -> bool) returns (ok: bool)
      modifies this`allModules
      ensures ok <==> forall h :: h in modules && h !in old(allModules) ==> loads(modules[h])
      ensures ok ==> allModules == Registered(old(allModules), modules)
    {
      ghost var was := allModules;
      var todo := modules.Keys;
      while todo != {}
        invariant todo <= modules.Keys
        invariant forall h :: h in modules && h !in todo && h !in was ==> loads(modules[h])
        invariant AddedSoFar(was, allModules, modules, todo)
        decreases todo
      {
        hide AddedSoFar, Registered;
        var h :| h in todo;
        AddedNext(was, allModules, modules, todo, h);
        ok := RegisterModule(h, modules[h], loads);
        if !ok { return; }
        todo := todo - {h};
      }
      ok := true;
    }

    /** `restore`: None is the assertion that the table is empty. */
    method Restore(c: Checkpoint, loads: Image -> bool) returns (r: Option<bool>)
      modifies this
      ensures r == if old(allModules) != map[] then None else Some(forall h :: h in c.modules ==> loads(c.modules[h]))
      ensures r == Some(true) ==> Value() == Restored(c)
      ensures r == Some(false) ==> activeModules == [] && functions == {}
      ensures r.None? ==> Value() == old(Value())
    {
      if allModules != map[] { return None; }
      activeModules := [];
      functions := {};
      var ok := RegisterModules(c.modules, loads);
      if !ok { return Some(false); }
      activeModules := c.active;
      r := Some(true);
    }

    method AttachWarm(c: Checkpoint)
      modifies this`activeModules, this`functions
      ensures Value() == Attached(old(Value()), c)
    {
      activeModules := c.active;
      functions := {};
    }
  }

  // ---------------------------------------------------------------- warm against cold

  /** No image of the one collides with an image of the other. */
  ghost predicate NoCollision(a: map<nat, Image>, b: map<nat, Image>, hash: Hash) {
    forall h, k :: h in a && k in b && hash(a[h]) == hash(b[k]) ==> a[h] == b[k]
  }

  ghost predicate Hashed(modules: map<nat, Image>, hash: Hash) { forall h :: h in modules ==> hash(modules[h]) == h }

  /** A checkpoint as the program writes it. */
  ghost predicate Proper(c: Checkpoint, hash: Hash) {
    c.modules.Keys == (set h | h in c.active) && Hashed(c.modules, hash)
  }

  /** The worker holds every module of the parked client. */
  ghost predicate Holds(all: map<nat, Image>, c: Checkpoint) { c.modules.Keys <= all.Keys }

  /** Two tables a client cannot tell apart by the handles it owns. */
  ghost predicate Alike(a: Table, b: Table) {
    && a.active == b.active && a.functions == b.functions
    && forall h :: h in a.active ==> (h in a.all <==> h in b.all) && (h in a.all && h in b.all ==> a.all[h] == b.all[h])
  }

  /** Main result: a warm attach leaves every active hash with a module exactly when the worker holds
      the client's modules; and then, unless images at hand collide, it is the cold restore. */
  lemma WarmIsCold(t: Table, c: Checkpoint, hash: Hash)
    requires Hashed(t.all, hash) && Proper(c, hash)
    ensures Known(Attached(t, c)) <==> Holds(t.all, c)
    ensures NoCollision(t.all, c.modules, hash) ==> (Alike(Attached(t, c), Restored(c)) <==> Holds(t.all, c))
  {
    assert forall h :: h in c.modules <==> h in c.active;
    if Holds(t.all, c) && NoCollision(t.all, c.modules, hash) {
      forall h | h in c.active ensures t.all[h] == c.modules[h] {
        assert hash(t.all[h]) == hash(c.modules[h]);
      }
    }
  }

  /** Parking and restoring cold loses nothing a second parking would save, but for the functions. */
  lemma ColdRoundTrip(t: Table, hash: Hash)
    requires Known(t) && Hashed(t.all, hash)
    ensures Proper(Saved(t), hash)
    ensures Known(Restored(Saved(t))) && Saved(Restored(Saved(t))) == Saved(t).(functions := {})
  {
  }

  // ---------------------------------------------------------------- preparing a standby

  /** The modules of several parked clients, registered one client after the other. */
  ghost function RegisteredAll(all: map<nat, Image>, snapshots: map<nat, Checkpoint>, clients: seq<nat>): map<nat, Image> {
    if clients == [] then all
    else
      var front, last := clients[..|clients| - 1], clients[|clients| - 1];
      var before := RegisteredAll(all, snapshots, front);
      if last in snapshots then Registered(before, snapshots[last].modules) else before
  }

  /** After `standby` over any list of parked clients the worker holds every one's modules. */
  lemma {:induction false} RegisteredAllHolds(all: map<nat, Image>, snapshots: map<nat, Checkpoint>, clients: seq<nat>, hash: Hash)
    requires Hashed(all, hash) && forall k :: k in snapshots ==> Hashed(snapshots[k].modules, hash)
    ensures var r := RegisteredAll(all, snapshots, clients);
            && Hashed(r, hash) && all.Keys <= r.Keys
            && forall k :: k in clients && k in snapshots ==> Holds(r, snapshots[k])
  {
    if clients != [] {
      RegisteredAllHolds(all, snapshots, clients[..|clients| - 1], hash);
    }
  }
}
