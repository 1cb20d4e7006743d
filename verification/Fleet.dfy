/** The daemon together with what its workers and clients hold: every worker's kernel table, and every
    parked client's snapshot in shared memory. Requests are served one at a time, so nothing comes
    between a child giving up its worker and that worker's dump. */
module Fleet {
  import opened Options
  import opened Kernels
  import D = Daemon

  datatype Fleet = Fleet(d: D.State, tables: map<nat, Table>, parked: map<nat, Checkpoint>) | Halted

  /** A request to the daemon, with the kernels found in a restored directory; a module loaded by a
      running client; or a function looked up in one. */
  datatype Action =
    | Request(a: D.Action, kernels: map<nat, Checkpoint>)
    | Load(client: nat, image: Image)
    | LookUp(client: nat, module_: nat, name: nat)

  const START: Fleet := Fleet(D.INIT, map[], map[])

  // ---------------------------------------------------------------- steps

  /** One client of a restored directory: its worker must not hold modules yet. */
  ghost function RestoreOne(f: Fleet, client: nat, ids: seq<int>, job: nat, devices: nat, worker: nat, c: Checkpoint): Fleet
    requires f.Fleet? && f.d.State?
  {
    var d := D.RestoreOne(f.d, client, ids, job, devices, worker);
    if d.Panicked? then Halted
    else
      var w := d.children[client].worker.value;
      if client in f.d.children && w in f.tables && f.tables[w].all != map[] then Halted
      else f.(d := d, tables := f.tables[w := Restored(c)])
  }

  ghost function RestoreMany(f: Fleet, order: seq<nat>, ids: map<nat, seq<int>>, job: nat, devices: nat, workers: map<nat, nat>,
                             kernels: map<nat, Checkpoint>): Fleet
    decreases |order|
  {
    if f.Halted? || f.d.Panicked? || order == [] then f
    else if order[0] !in ids || order[0] !in workers || order[0] !in kernels then Halted
    else
      RestoreMany(RestoreOne(f, order[0], ids[order[0]], job, devices, workers[order[0]], kernels[order[0]]),
                  order[1..], ids, job, devices, workers, kernels)
  }

  /** What a request other than a restore does beside the daemon's own step to `d`. */
  ghost function Effect(f: Fleet, a: D.Action, d: D.State): Fleet
    requires f.Fleet? && f.d.State? && d.State? && d == D.Step(f.d, a)
  {
    var g := f.(d := d);
    match a
    case NewThread(client, _, _, spawned) => if client in f.d.children then g else g.(tables := f.tables[spawned := EMPTY])
    case DetachBegin(client) =>
      var w := f.d.children[client].worker.value;
      if w !in f.tables || !Known(f.tables[w]) then Halted else g.(parked := f.parked[client := Saved(f.tables[w])])
    case Attach(client, spawned) =>
      if client !in f.parked then Halted
      else if !D.IsWarm(f.d, client) then g.(tables := f.tables[spawned := Restored(f.parked[client])])
      else
        var w := f.d.standby.value.worker;
        if w !in f.tables then Halted else g.(tables := f.tables[w := Attached(f.tables[w], f.parked[client])])
    case PrepareStandby(clients, spawned) =>
      g.(tables := f.tables[spawned := Table(RegisteredAll(map[], f.parked, clients), [], {})])
    case _ => g
  }

  ghost predicate Runs(f: Fleet, client: nat) {
    && f.Fleet? && f.d.State? && client in f.d.children && f.d.children[client].worker.Some?
    && f.d.children[client].worker.value in f.tables
  }

  ghost function WorkerOf(f: Fleet, client: nat): nat
    requires Runs(f, client)
  {
    f.d.children[client].worker.value
  }

  ghost function Step(f: Fleet, x: Action, hash: Hash): Fleet {
    if f.Halted? || f.d.Panicked? then f else match x
      case Load(client, image) =>
        if !Runs(f, client) then f
        else f.(tables := f.tables[WorkerOf(f, client) := Loaded(f.tables[WorkerOf(f, client)], hash, image)])
      case LookUp(client, module_, name) =>
        if !Runs(f, client) then f
        else
          var t := f.tables[WorkerOf(f, client)];
          if module_ !in t.all then Halted                       // the unwrap in cu_module_get_function
          else f.(tables := f.tables[WorkerOf(f, client) := Found(t, module_, name)])
      case Request(a, kernels) =>
        if a.RestoreJob? then
          if !(f.d.nextId <= a.min <= a.max) then Halted
          else RestoreMany(f.(d := f.d.(nextId := a.max + 1)), a.order, a.ids, a.job, a.devices, a.workers, kernels)
        else
          var d := D.Step(f.d, a);
          if d.Panicked? then Halted else Effect(f, a, d)
  }

  ghost function Exec(actions: seq<Action>, hash: Hash): Fleet {
    if actions == [] then START else Step(Exec(actions[..|actions| - 1], hash), actions[|actions| - 1], hash)
  }

  // ---------------------------------------------------------------- what a worker has missed

  /** For a worker and a client: the modules the client loaded on other workers since this worker last
      saw its kernels, by running it or by preparing for it. */
  type Away = (nat, nat) -> set<nat>

  ghost function Hashes(active: seq<nat>): set<nat> { set h | h in active }

  /** A client that starts anew, with these modules. */
  ghost function Anew(h: Away, client: nat, loaded: set<nat>): Away {
    (w: nat, k: nat) => if k == client then loaded else h(w, k)
  }

  /** A worker sees these clients. */
  ghost function Sees(h: Away, worker: nat, clients: set<nat>): Away {
    (w: nat, k: nat) => if w == worker && k in clients then {} else h(w, k)
  }

  ghost function Loads(h: Away, worker: nat, client: nat, module_: nat): Away {
    (w: nat, k: nat) => if k == client && w != worker then h(w, k) + {module_} else h(w, k)
  }

  ghost function AnewMany(h: Away, order: seq<nat>, kernels: map<nat, Checkpoint>): Away {
    if order == [] then h
    else AnewMany(Anew(h, order[0], if order[0] in kernels then Hashes(kernels[order[0]].active) else {}), order[1..], kernels)
  }

  ghost function NextAway(f: Fleet, x: Action, h: Away, hash: Hash): Away {
    if f.Halted? || f.d.Panicked? then h else match x
      case Load(client, image) => if Runs(f, client) then Loads(h, WorkerOf(f, client), client, hash(image)) else h
      case LookUp(_, _, _) => h
      case Request(a, kernels) =>
        match a
        case NewThread(client, _, _, _) => if client in f.d.children then h else Anew(h, client, {})
        case RestoreJob(order, _, _, _, _, _, _) => AnewMany(h, order, kernels)
        case DetachBegin(client) => if Runs(f, client) then Sees(h, WorkerOf(f, client), {client}) else h
        case PrepareStandby(clients, spawned) => Sees(h, spawned, set k | k in clients)
        case _ => h
  }

  /** The same, read off a run. */
  ghost function AwayAfter(actions: seq<Action>, hash: Hash): Away {
    if actions == [] then (w: nat, k: nat) => {}
    else
      var front := actions[..|actions| - 1];
      NextAway(Exec(front, hash), actions[|actions| - 1], AwayAfter(front, hash), hash)
  }

  // ---------------------------------------------------------------- the invariant

  /** The hashes on a client's list, wherever it is. */
  ghost function Active(children: map<nat, D.Child>, tables: map<nat, Table>, parked: map<nat, Checkpoint>, k: nat): set<nat> {
    if k !in children then {}
    else match children[k].worker
      case Some(w) => if w in tables then Hashes(tables[w].active) else {}
      case None => if k in parked then Hashes(parked[k].active) else {}
  }

  /** Worker `w` has all of client `k`'s modules but those it missed. */
  ghost predicate Covers(children: map<nat, D.Child>, tables: map<nat, Table>, parked: map<nat, Checkpoint>, h: Away, w: nat, k: nat) {
    && w in tables
    && (k in children ==>
          && Active(children, tables, parked, k) <= tables[w].all.Keys + h(w, k)
          && h(w, k) <= Active(children, tables, parked, k))
  }

  ghost predicate CachesCover(children: map<nat, D.Child>, caches: map<nat, set<nat>>, detaching: map<nat, nat>,
                              tables: map<nat, Table>, parked: map<nat, Checkpoint>, h: Away) {
    && (forall w, k :: w in caches && k in caches[w] ==> Covers(children, tables, parked, h, w, k))
    && (forall w :: w in detaching ==> Covers(children, tables, parked, h, w, detaching[w]))
  }

  ghost predicate Housed(children: map<nat, D.Child>, tables: map<nat, Table>, parked: map<nat, Checkpoint>) {
    forall k :: k in children ==> if children[k].worker.Some? then children[k].worker.value in tables else k in parked
  }

  ghost predicate StandbyOk(standby: Option<D.Standby>, caches: map<nat, set<nat>>) {
    standby.Some? ==> standby.value.worker in caches && caches[standby.value.worker] == standby.value.clients
  }

  ghost predicate Sound(tables: map<nat, Table>, parked: map<nat, Checkpoint>, hash: Hash) {
    && (forall w :: w in tables ==> Hashed(tables[w].all, hash))
    && (forall k :: k in parked ==> Proper(parked[k], hash))
  }

  ghost predicate Inv(f: Fleet, h: Away, hash: Hash) {
    f.Fleet? ==>
      && f.d.State? && D.Inv(f.d)
      && Housed(f.d.children, f.tables, f.parked) && StandbyOk(f.d.standby, f.d.caches) && Sound(f.tables, f.parked, hash)
      && CachesCover(f.d.children, f.d.caches, f.d.detaching, f.tables, f.parked, h)
  }

  /** Fresh worker pids, sound directories, and kernels as some worker wrote them. */
  ghost predicate Sane(f: Fleet, x: Action, hash: Hash) {
    f.Fleet? && f.d.State? && x.Request? ==>
      && D.Sane(f.d, x.a)
      && forall k :: k in x.kernels ==> Proper(x.kernels[k], hash)
  }

  // ---------------------------------------------------------------- every step keeps it

  /** A worker whose table is not any other child's can be given a new one. */
  lemma ActiveOf(children: map<nat, D.Child>, tables: map<nat, Table>, parked: map<nat, Checkpoint>, k: nat, w: nat, t: Table)
    requires k in children && children[k].worker != Some(w)
    ensures Active(children, tables[w := t], parked, k) == Active(children, tables, parked, k)
  {
  }

  lemma NewChildCovers(d: D.State, tables: map<nat, Table>, parked: map<nat, Checkpoint>, h: Away, client: nat, child: D.Child, spawned: nat, t: Table)
    requires d.State? && CachesCover(d.children, d.caches, d.detaching, tables, parked, h)
    requires client !in d.children && !D.Owned(d, spawned) && child.worker == Some(spawned)
    ensures CachesCover(d.children[client := child], d.caches - {spawned}, d.detaching, tables[spawned := t], parked, Anew(h, client, Hashes(t.active)))
  {
    hide Covers;
    forall w, k | w != spawned && Covers(d.children, tables, parked, h, w, k)
      ensures Covers(d.children[client := child], tables[spawned := t], parked, Anew(h, client, Hashes(t.active)), w, k)
    {
      NewChildCoversOne(d, tables, parked, h, client, child, spawned, t, w, k);
    }
    assert spawned !in d.detaching;
  }

  lemma NewChildCoversOne(d: D.State, tables: map<nat, Table>, parked: map<nat, Checkpoint>, h: Away, client: nat, child: D.Child, spawned: nat, t: Table,
                          w: nat, k: nat)
    requires d.State? && client !in d.children && !D.Owned(d, spawned) && child.worker == Some(spawned)
    requires w != spawned && Covers(d.children, tables, parked, h, w, k)
    ensures Covers(d.children[client := child], tables[spawned := t], parked, Anew(h, client, Hashes(t.active)), w, k)
  {
    if k in d.children {
      assert d.children[k].worker != Some(spawned);
      ActiveOf(d.children, tables, parked, k, spawned, t);
    }
  }

  /** An attached client's table is replaced before it holds anything. */
  lemma RestartCovers(d: D.State, tables: map<nat, Table>, parked: map<nat, Checkpoint>, h: Away, client: nat, child: D.Child, w: nat, t: Table)
    requires d.State? && CachesCover(d.children, d.caches, d.detaching, tables, parked, h) && D.OwnedOnce(d.children, d.standby, d.detaching)
    requires client in d.children && d.children[client].worker == child.worker == Some(w) && w in tables && tables[w].all == map[]
    ensures CachesCover(d.children[client := child], d.caches, d.detaching, tables[w := t], parked, Anew(h, client, Hashes(t.active)))
  {
    hide Covers;
    forall v, k | Covers(d.children, tables, parked, h, v, k)
      ensures Covers(d.children[client := child], tables[w := t], parked, Anew(h, client, Hashes(t.active)), v, k)
    {
      RestartCoversOne(d, tables, parked, h, client, child, w, t, v, k);
    }
  }

  lemma RestartCoversOne(d: D.State, tables: map<nat, Table>, parked: map<nat, Checkpoint>, h: Away, client: nat, child: D.Child, w: nat, t: Table, v: nat, k: nat)
    requires d.State? && D.OwnedOnce(d.children, d.standby, d.detaching)
    requires client in d.children && d.children[client].worker == child.worker == Some(w) && w in tables && tables[w].all == map[]
    requires Covers(d.children, tables, parked, h, v, k)
    ensures Covers(d.children[client := child], tables[w := t], parked, Anew(h, client, Hashes(t.active)), v, k)
  {
    if k in d.children && k != client {
      assert d.children[k].worker != Some(w);
      ActiveOf(d.children, tables, parked, k, w, t);
    }
  }

  lemma LoadCovers(d: D.State, tables: map<nat, Table>, parked: map<nat, Checkpoint>, h: Away, client: nat, w: nat, hash: Hash, image: Image)
    requires d.State? && CachesCover(d.children, d.caches, d.detaching, tables, parked, h) && D.OwnedOnce(d.children, d.standby, d.detaching)
    requires client in d.children && d.children[client].worker == Some(w) && w in tables
    ensures CachesCover(d.children, d.caches, d.detaching, tables[w := Loaded(tables[w], hash, image)], parked, Loads(h, w, client, hash(image)))
  {
    hide Covers;
    forall v, k | Covers(d.children, tables, parked, h, v, k)
      ensures Covers(d.children, tables[w := Loaded(tables[w], hash, image)], parked, Loads(h, w, client, hash(image)), v, k)
    {
      LoadCoversOne(d, tables, parked, h, client, w, hash, image, v, k);
    }
  }

  lemma LoadCoversOne(d: D.State, tables: map<nat, Table>, parked: map<nat, Checkpoint>, h: Away, client: nat, w: nat, hash: Hash, image: Image, v: nat, k: nat)
    requires d.State? && D.OwnedOnce(d.children, d.standby, d.detaching)
    requires client in d.children && d.children[client].worker == Some(w) && w in tables
    requires Covers(d.children, tables, parked, h, v, k)
    ensures Covers(d.children, tables[w := Loaded(tables[w], hash, image)], parked, Loads(h, w, client, hash(image)), v, k)
  {
    var t := Loaded(tables[w], hash, image);
    if k == client {
      assert Hashes(t.active) == Hashes(tables[w].active) + {hash(image)};
    } else if k in d.children {
      assert d.children[k].worker != Some(w);
      ActiveOf(d.children, tables, parked, k, w, t);
    }
  }

  /** A dump: the list moves from the worker's table into the snapshot, and the worker has seen it. */
  lemma DetachCovers(d: D.State, tables: map<nat, Table>, parked: map<nat, Checkpoint>, h: Away, client: nat, w: nat)
    requires d.State? && CachesCover(d.children, d.caches, d.detaching, tables, parked, h)
    requires client in d.children && d.children[client].worker == Some(w) && w in tables && Known(tables[w])
    ensures CachesCover(d.children[client := d.children[client].(worker := None)], d.caches, d.detaching[w := client],
                        tables, parked[client := Saved(tables[w])], Sees(h, w, {client}))
  {
    hide Covers;
    var children' := d.children[client := d.children[client].(worker := None)];
    var parked', h' := parked[client := Saved(tables[w])], Sees(h, w, {client});
    forall v, k | Covers(d.children, tables, parked, h, v, k) || (v == w && k == client)
      ensures Covers(children', tables, parked', h', v, k)
    {
      DetachCoversOne(d.children, tables, parked, h, client, w, v, k);
    }
  }

  lemma DetachCoversOne(children: map<nat, D.Child>, tables: map<nat, Table>, parked: map<nat, Checkpoint>, h: Away, client: nat, w: nat, v: nat, k: nat)
    requires client in children && children[client].worker == Some(w) && w in tables && Known(tables[w])
    requires Covers(children, tables, parked, h, v, k) || (v == w && k == client)
    ensures Covers(children[client := children[client].(worker := None)], tables, parked[client := Saved(tables[w])], Sees(h, w, {client}), v, k)
  {
    assert Hashes(Saved(tables[w]).active) == Hashes(tables[w].active);
  }

  /** An attach: the list moves from the snapshot into a table nobody runs on. */
  lemma AttachCovers(d: D.State, tables: map<nat, Table>, parked: map<nat, Checkpoint>, h: Away, client: nat, w: nat, t: Table, caches: map<nat, set<nat>>)
    requires d.State? && CachesCover(d.children, d.caches, d.detaching, tables, parked, h)
    requires client in d.children && d.children[client].worker.None? && client in parked
    requires forall k :: k in d.children ==> d.children[k].worker != Some(w)
    requires Hashes(t.active) == Hashes(parked[client].active)
    requires forall v :: v in caches ==> v in d.caches && caches[v] <= d.caches[v]
    requires (w !in caches && w !in d.detaching) || (w in tables && tables[w].all.Keys <= t.all.Keys)
    ensures CachesCover(d.children[client := d.children[client].(worker := Some(w))], caches, d.detaching, tables[w := t], parked, h)
  {
    hide Covers;
    var children' := d.children[client := d.children[client].(worker := Some(w))];
    forall v, k | Covers(d.children, tables, parked, h, v, k) && (v != w || (w in tables && tables[w].all.Keys <= t.all.Keys))
      ensures Covers(children', tables[w := t], parked, h, v, k)
    {
      AttachCoversOne(d.children, tables, parked, h, client, w, t, v, k);
    }
  }

  lemma AttachCoversOne(children: map<nat, D.Child>, tables: map<nat, Table>, parked: map<nat, Checkpoint>, h: Away, client: nat, w: nat, t: Table, v: nat, k: nat)
    requires client in children && children[client].worker.None? && client in parked
    requires forall k :: k in children ==> children[k].worker != Some(w)
    requires Hashes(t.active) == Hashes(parked[client].active)
    requires Covers(children, tables, parked, h, v, k) && (v != w || (w in tables && tables[w].all.Keys <= t.all.Keys))
    ensures Covers(children[client := children[client].(worker := Some(w))], tables[w := t], parked, h, v, k)
  {
    if k in children && k != client { ActiveOf(children, tables, parked, k, w, t); }
  }

  /** A standby prepared for parked clients holds all their modules. */
  lemma PrepareCovers(d: D.State, tables: map<nat, Table>, parked: map<nat, Checkpoint>, h: Away, clients: set<nat>, w: nat, t: Table)
    requires d.State? && CachesCover(d.children, d.caches, d.detaching, tables, parked, h) && !D.Owned(d, w)
    requires forall k :: k in clients ==> k in d.children && d.children[k].worker.None? && k in parked && Hashes(parked[k].active) <= t.all.Keys
    ensures CachesCover(d.children, d.caches[w := clients], d.detaching, tables[w := t], parked, Sees(h, w, clients))
  {
    hide Covers;
    assert w !in d.detaching;
    var caches := d.caches[w := clients];
    forall v, k | v in caches && k in caches[v]
      ensures Covers(d.children, tables[w := t], parked, Sees(h, w, clients), v, k)
    {
      if v != w { assert v in d.caches && k in d.caches[v]; }
      PrepareCoversOne(d, tables, parked, h, clients, w, t, v, k);
    }
    forall v | v in d.detaching
      ensures Covers(d.children, tables[w := t], parked, Sees(h, w, clients), v, d.detaching[v])
    {
      PrepareCoversOne(d, tables, parked, h, clients, w, t, v, d.detaching[v]);
    }
  }

  lemma PrepareCoversOne(d: D.State, tables: map<nat, Table>, parked: map<nat, Checkpoint>, h: Away, clients: set<nat>, w: nat, t: Table, v: nat, k: nat)
    requires d.State? && !D.Owned(d, w)
    requires forall k :: k in clients ==> k in d.children && d.children[k].worker.None? && k in parked && Hashes(parked[k].active) <= t.all.Keys
    requires (v != w && Covers(d.children, tables, parked, h, v, k)) || (v == w && k in clients)
    ensures Covers(d.children, tables[w := t], parked, Sees(h, w, clients), v, k)
  {
    if k in d.children {
      assert d.children[k].worker != Some(w);
      ActiveOf(d.children, tables, parked, k, w, t);
    }
  }

  lemma DetachEndCovers(children: map<nat, D.Child>, caches: map<nat, set<nat>>, detaching: map<nat, nat>, tables: map<nat, Table>,
                        parked: map<nat, Checkpoint>, h: Away, w: nat)
    requires CachesCover(children, caches, detaching, tables, parked, h) && w in detaching
    ensures CachesCover(children, caches, detaching - {w}, tables, parked, h)
    ensures w in caches ==> CachesCover(children, caches[w := caches[w] + {detaching[w]}], detaching - {w}, tables, parked, h)
  {
    hide Covers;
  }

  lemma ReapCovers(children: map<nat, D.Child>, children': map<nat, D.Child>, caches: map<nat, set<nat>>, detaching: map<nat, nat>,
                   tables: map<nat, Table>, parked: map<nat, Checkpoint>, h: Away)
    requires CachesCover(children, caches, detaching, tables, parked, h)
    requires forall k :: k in children' ==> k in children && children'[k].worker == children[k].worker
    ensures CachesCover(children', caches, detaching, tables, parked, h)
  {
    forall w, k | Covers(children, tables, parked, h, w, k) ensures Covers(children', tables, parked, h, w, k) {
      assert k in children' ==> Active(children', tables, parked, k) == Active(children, tables, parked, k);
    }
    hide Covers;
  }

  // ---------------------------------------------------------------- requests, one by one

  lemma SoundUpdate(tables: map<nat, Table>, parked: map<nat, Checkpoint>, hash: Hash, w: nat, t: Table)
    requires Sound(tables, parked, hash) && Hashed(t.all, hash)
    ensures Sound(tables[w := t], parked, hash)
  {
  }

  lemma HousedUpdate(children: map<nat, D.Child>, tables: map<nat, Table>, parked: map<nat, Checkpoint>, k: nat, child: D.Child, w: nat, t: Table)
    requires Housed(children, tables, parked) && (if child.worker.Some? then child.worker.value == w || child.worker.value in tables else k in parked)
    ensures Housed(children[k := child], tables[w := t], parked)
  {
  }

  lemma StandbyFresh(d: D.State, w: nat)
    requires d.State? && StandbyOk(d.standby, d.caches) && !D.Owned(d, w)
    ensures StandbyOk(d.standby, d.caches - {w})
  {
  }

  lemma NewThreadKeeps(f: Fleet, client: nat, job: nat, devices: nat, spawned: nat, h: Away, hash: Hash)
    requires f.Fleet? && Inv(f, h, hash) && D.Sane(f.d, D.NewThread(client, job, devices, spawned))
    requires D.Step(f.d, D.NewThread(client, job, devices, spawned)).State?
    ensures var a := D.NewThread(client, job, devices, spawned);
            Inv(Effect(f, a, D.Step(f.d, a)), if client in f.d.children then h else Anew(h, client, {}), hash)
  {
    hide D.IdsDistinct, D.OwnedOnce, D.Inv, D.Owned, CachesCover, Housed, Sound, StandbyOk;
    var a := D.NewThread(client, job, devices, spawned);
    D.StepKeeps(f.d, a);
    var d := D.Step(f.d, a);
    if client in f.d.children {
      ReapCovers(f.d.children, d.children, f.d.caches, f.d.detaching, f.tables, f.parked, h);
      HousedAlike(f.d.children, d.children, f.tables, f.parked);
    } else {
      assert Hashes(EMPTY.active) == {};
      assert d.children == f.d.children[client := d.children[client]];
      NewChildCovers(f.d, f.tables, f.parked, h, client, d.children[client], spawned, EMPTY);
      HousedUpdate(f.d.children, f.tables, f.parked, client, d.children[client], spawned, EMPTY);
      SoundUpdate(f.tables, f.parked, hash, spawned, EMPTY);
      StandbyFresh(f.d, spawned);
    }
  }

  lemma HousedAlike(children: map<nat, D.Child>, children': map<nat, D.Child>, tables: map<nat, Table>, parked: map<nat, Checkpoint>)
    requires Housed(children, tables, parked)
    requires forall k :: k in children' ==> k in children && children'[k].worker == children[k].worker
    ensures Housed(children', tables, parked)
  {
  }

  lemma LoadKeeps(f: Fleet, client: nat, image: Image, h: Away, hash: Hash)
    requires f.Fleet? && Inv(f, h, hash) && Runs(f, client)
    ensures Inv(Step(f, Load(client, image), hash), Loads(h, WorkerOf(f, client), client, hash(image)), hash)
  {
    hide D.IdsDistinct, D.OwnedOnce, CachesCover, Housed, Sound, StandbyOk;
    var w := WorkerOf(f, client);
    var t := Loaded(f.tables[w], hash, image);
    LoadCovers(f.d, f.tables, f.parked, h, client, w, hash, image);
    LoadedHashed(f.tables, f.parked, hash, w, image);
    SoundUpdate(f.tables, f.parked, hash, w, t);
    assert f.d.children[client := f.d.children[client]] == f.d.children;
    HousedUpdate(f.d.children, f.tables, f.parked, client, f.d.children[client], w, t);
  }

  /** The table of functions is nobody's business here. */
  lemma LookUpKeeps(f: Fleet, client: nat, module_: nat, name: nat, h: Away, hash: Hash)
    requires f.Fleet? && Inv(f, h, hash) && Runs(f, client)
    ensures Inv(Step(f, LookUp(client, module_, name), hash), h, hash)
  {
    hide D.IdsDistinct, D.OwnedOnce, CachesCover, Housed, Sound, StandbyOk;
    var w := WorkerOf(f, client);
    var t := Found(f.tables[w], module_, name);
    FoundCovers(f.d.children, f.d.caches, f.d.detaching, f.tables, f.parked, h, w, t);
    TableHashed(f.tables, f.parked, hash, w);
    SoundUpdate(f.tables, f.parked, hash, w, t);
    assert f.d.children[client := f.d.children[client]] == f.d.children;
    HousedUpdate(f.d.children, f.tables, f.parked, client, f.d.children[client], w, t);
  }

  lemma TableHashed(tables: map<nat, Table>, parked: map<nat, Checkpoint>, hash: Hash, w: nat)
    requires Sound(tables, parked, hash) && w in tables
    ensures Hashed(tables[w].all, hash)
  {
  }

  lemma FoundCovers(children: map<nat, D.Child>, caches: map<nat, set<nat>>, detaching: map<nat, nat>, tables: map<nat, Table>,
                    parked: map<nat, Checkpoint>, h: Away, w: nat, t: Table)
    requires CachesCover(children, caches, detaching, tables, parked, h)
    requires w in tables && t.all == tables[w].all && t.active == tables[w].active
    ensures CachesCover(children, caches, detaching, tables[w := t], parked, h)
  {
    forall v, k | Covers(children, tables, parked, h, v, k) ensures Covers(children, tables[w := t], parked, h, v, k) {
      assert k in children ==> Active(children, tables[w := t], parked, k) == Active(children, tables, parked, k);
    }
    hide Covers;
  }

  lemma LoadedHashed(tables: map<nat, Table>, parked: map<nat, Checkpoint>, hash: Hash, w: nat, image: Image)
    requires Sound(tables, parked, hash) && w in tables
    ensures Hashed(Loaded(tables[w], hash, image).all, hash)
  {
  }

  lemma DetachBeginKeeps(f: Fleet, client: nat, h: Away, hash: Hash)
    requires f.Fleet? && Inv(f, h, hash) && D.Step(f.d, D.DetachBegin(client)).State?
    ensures Runs(f, client)
    ensures Inv(Effect(f, D.DetachBegin(client), D.Step(f.d, D.DetachBegin(client))), Sees(h, WorkerOf(f, client), {client}), hash)
  {
    hide D.IdsDistinct, D.OwnedOnce, D.Inv, CachesCover, Sound, StandbyOk;
    D.StepKeeps(f.d, D.DetachBegin(client));
    var w := f.d.children[client].worker.value;
    if Known(f.tables[w]) {
      DetachCovers(f.d, f.tables, f.parked, h, client, w);
      SavedSound(f.tables, f.parked, hash, w, client);
    }
  }

  lemma SavedSound(tables: map<nat, Table>, parked: map<nat, Checkpoint>, hash: Hash, w: nat, k: nat)
    requires Sound(tables, parked, hash) && w in tables && Known(tables[w])
    ensures Sound(tables, parked[k := Saved(tables[w])], hash)
  {
    ColdRoundTrip(tables[w], hash);
  }

  lemma DetachEndKeeps(f: Fleet, w: nat, h: Away, hash: Hash)
    requires f.Fleet? && Inv(f, h, hash) && D.Step(f.d, D.DetachEnd(w)).State?
    ensures Inv(Effect(f, D.DetachEnd(w), D.Step(f.d, D.DetachEnd(w))), h, hash)
  {
    hide D.IdsDistinct, D.OwnedOnce, D.Inv, CachesCover, Sound, Housed;
    D.StepKeeps(f.d, D.DetachEnd(w));
    if w in f.d.detaching { DetachEndCovers(f.d.children, f.d.caches, f.d.detaching, f.tables, f.parked, h, w); }
  }

  lemma ReapKeeps(f: Fleet, finished: set<nat>, h: Away, hash: Hash)
    requires f.Fleet? && Inv(f, h, hash)
    ensures Inv(Effect(f, D.Reap(finished), D.Step(f.d, D.Reap(finished))), h, hash)
  {
    hide D.IdsDistinct, D.OwnedOnce, D.Inv, CachesCover, Sound, Housed;
    D.StepKeeps(f.d, D.Reap(finished));
    var children := D.Reaped(f.d, finished).children;
    ReapCovers(f.d.children, children, f.d.caches, f.d.detaching, f.tables, f.parked, h);
    HousedAlike(f.d.children, children, f.tables, f.parked);
  }

  lemma AttachKeeps(f: Fleet, client: nat, spawned: nat, h: Away, hash: Hash)
    requires f.Fleet? && Inv(f, h, hash) && D.Sane(f.d, D.Attach(client, spawned)) && D.Step(f.d, D.Attach(client, spawned)).State?
    ensures client in f.parked && (D.IsWarm(f.d, client) ==> f.d.standby.value.worker in f.tables)
    ensures Inv(Effect(f, D.Attach(client, spawned), D.Step(f.d, D.Attach(client, spawned))), h, hash)
  {
    hide D.IdsDistinct, D.Inv, CachesCover, Sound, Housed, Covers;
    D.StepKeeps(f.d, D.Attach(client, spawned));
    ParkedHere(f, client, h, hash);
    if D.IsWarm(f.d, client) {
      var w := f.d.standby.value.worker;
      StandbyHere(f, client, h, hash);
      WarmCovers(f, client, h, hash);
      var t := Attached(f.tables[w], f.parked[client]);
      SoundAt(f.tables, f.parked, hash, w, client);
      SoundUpdate(f.tables, f.parked, hash, w, t);
      HousedUpdate(f.d.children, f.tables, f.parked, client, f.d.children[client].(worker := Some(w)), w, t);
    } else {
      var t := Restored(f.parked[client]);
      D.NotRunning(f.d, spawned);
      assert forall v :: v in f.d.caches - {spawned} ==> v in f.d.caches && (f.d.caches - {spawned})[v] == f.d.caches[v];
      assert spawned !in f.d.detaching;
      AttachCovers(f.d, f.tables, f.parked, h, client, spawned, t, f.d.caches - {spawned});
      SoundParked(f.tables, f.parked, hash, client);
      SoundUpdate(f.tables, f.parked, hash, spawned, t);
      HousedUpdate(f.d.children, f.tables, f.parked, client, f.d.children[client].(worker := Some(spawned)), spawned, t);
      StandbyFresh(f.d, spawned);
    }
  }

  lemma ParkedHere(f: Fleet, client: nat, h: Away, hash: Hash)
    requires f.Fleet? && Inv(f, h, hash) && client in f.d.children && f.d.children[client].worker.None?
    ensures client in f.parked && Proper(f.parked[client], hash)
  {
  }

  lemma StandbyHere(f: Fleet, client: nat, h: Away, hash: Hash)
    requires f.Fleet? && Inv(f, h, hash) && D.IsWarm(f.d, client)
    ensures f.d.standby.value.worker in f.d.caches && f.d.caches[f.d.standby.value.worker] == f.d.standby.value.clients
    ensures Covers(f.d.children, f.tables, f.parked, h, f.d.standby.value.worker, client)
    ensures f.d.standby.value.worker in f.tables && Hashed(f.tables[f.d.standby.value.worker].all, hash)
  {
  }

  lemma WarmCovers(f: Fleet, client: nat, h: Away, hash: Hash)
    requires f.Fleet? && Inv(f, h, hash) && D.IsWarm(f.d, client) && client in f.parked
    requires client in f.d.children && f.d.children[client].worker.None? && f.d.standby.value.worker in f.tables
    requires f.d.standby.value.worker in f.d.caches
    ensures var w := f.d.standby.value.worker; var caches := f.d.caches[w := f.d.caches[w] - {client}];
            && CachesCover(f.d.children[client := f.d.children[client].(worker := Some(w))], caches, f.d.detaching,
                           f.tables[w := Attached(f.tables[w], f.parked[client])], f.parked, h)
  {
    hide CachesCover, Sound, Housed, D.IdsDistinct;
    var w := f.d.standby.value.worker;
    AttachCovers(f.d, f.tables, f.parked, h, client, w, Attached(f.tables[w], f.parked[client]), f.d.caches[w := f.d.caches[w] - {client}]);
  }

  lemma SoundAt(tables: map<nat, Table>, parked: map<nat, Checkpoint>, hash: Hash, w: nat, k: nat)
    requires Sound(tables, parked, hash) && w in tables && k in parked
    ensures Hashed(Attached(tables[w], parked[k]).all, hash)
  {
  }

  lemma SoundParked(tables: map<nat, Table>, parked: map<nat, Checkpoint>, hash: Hash, k: nat)
    requires Sound(tables, parked, hash) && k in parked
    ensures Hashed(Restored(parked[k]).all, hash)
  {
  }

  lemma PrepareKeeps(f: Fleet, clients: seq<nat>, spawned: nat, h: Away, hash: Hash)
    requires f.Fleet? && Inv(f, h, hash) && D.Sane(f.d, D.PrepareStandby(clients, spawned)) && D.Step(f.d, D.PrepareStandby(clients, spawned)).State?
    ensures Inv(Effect(f, D.PrepareStandby(clients, spawned), D.Step(f.d, D.PrepareStandby(clients, spawned))),
                Sees(h, spawned, set k | k in clients), hash)
  {
    hide D.IdsDistinct, D.OwnedOnce, D.Inv, CachesCover, Sound, Housed, RegisteredAll;
    D.StepKeeps(f.d, D.PrepareStandby(clients, spawned));
    var t := Table(RegisteredAll(map[], f.parked, clients), [], {});
    var covered := set k | k in clients;
    assert forall k :: k in covered ==> D.MayStandBy(f.d.children, clients[0], k) by {
      assert forall i :: 0 <= i < |clients| ==> D.MayStandBy(f.d.children, clients[0], clients[i]);
    }
    PreparedHolds(f, clients, h, hash);
    PrepareCovers(f.d, f.tables, f.parked, h, covered, spawned, t);
    SoundUpdate(f.tables, f.parked, hash, spawned, t);
    HousedMore(f.d.children, f.tables, f.parked, spawned, t);
  }

  lemma HousedMore(children: map<nat, D.Child>, tables: map<nat, Table>, parked: map<nat, Checkpoint>, w: nat, t: Table)
    requires Housed(children, tables, parked)
    ensures Housed(children, tables[w := t], parked)
  {
  }

  lemma PreparedHolds(f: Fleet, clients: seq<nat>, h: Away, hash: Hash)
    requires f.Fleet? && Inv(f, h, hash)
    ensures var all := RegisteredAll(map[], f.parked, clients);
            && Hashed(all, hash)
            && forall k :: k in clients && k in f.d.children && f.d.children[k].worker.None? ==> k in f.parked && Hashes(f.parked[k].active) <= all.Keys
  {
    hide CachesCover, D.Inv;
    RegisteredAllHolds(map[], f.parked, clients, hash);
  }

  // ---------------------------------------------------------------- restoring a directory

  lemma RestoreSpawns(f: Fleet, client: nat, ids: seq<int>, job: nat, devices: nat, worker: nat, c: Checkpoint, h: Away, hash: Hash)
    requires f.Fleet? && Inv(f, h, hash) && client !in f.d.children && !D.Owned(f.d, worker) && Proper(c, hash)
    requires var g := RestoreOne(f, client, ids, job, devices, worker, c); g.Fleet? && D.Inv(g.d)
    ensures Inv(RestoreOne(f, client, ids, job, devices, worker, c), Anew(h, client, Hashes(c.active)), hash)
  {
    hide D.IdsDistinct, D.OwnedOnce, D.Inv, D.Owned, CachesCover, Housed, Sound, StandbyOk;
    var g := RestoreOne(f, client, ids, job, devices, worker, c);
    var child := g.d.children[client];
    assert g.d.children == f.d.children[client := child];
    NewChildCovers(f.d, f.tables, f.parked, h, client, child, worker, Restored(c));
    HousedUpdate(f.d.children, f.tables, f.parked, client, child, worker, Restored(c));
    SoundUpdate(f.tables, f.parked, hash, worker, Restored(c));
    StandbyFresh(f.d, worker);
  }

  lemma RestoreReuses(f: Fleet, client: nat, ids: seq<int>, job: nat, devices: nat, worker: nat, c: Checkpoint, h: Away, hash: Hash)
    requires f.Fleet? && Inv(f, h, hash) && client in f.d.children && Proper(c, hash)
    requires var g := RestoreOne(f, client, ids, job, devices, worker, c); g.Fleet? && D.Inv(g.d)
    ensures Inv(RestoreOne(f, client, ids, job, devices, worker, c), Anew(h, client, Hashes(c.active)), hash)
  {
    hide D.IdsDistinct, D.OwnedOnce, CachesCover, Sound, StandbyOk;
    var g := RestoreOne(f, client, ids, job, devices, worker, c);
    var w := f.d.children[client].worker.value;
    assert w in f.tables;
    hide Housed;
    RestartCovers(f.d, f.tables, f.parked, h, client, g.d.children[client], w, Restored(c));
    HousedUpdate(f.d.children, f.tables, f.parked, client, g.d.children[client], w, Restored(c));
    SoundUpdate(f.tables, f.parked, hash, w, Restored(c));
  }

  lemma RestoreOneKeeps(f: Fleet, ids: map<nat, seq<int>>, todo: set<nat>, client: nat, min: int, max: int, job: nat, devices: nat,
                        workers: map<nat, nat>, c: Checkpoint, h: Away, hash: Hash)
    requires f.Fleet? && Inv(f, h, hash) && Proper(c, hash)
    requires f.d.nextId == max + 1 && client in todo && client in ids && client in workers
    requires D.DistinctIds(ids, min, max) && D.Unclaimed(f.d.children, ids, todo) && D.FreshWorkers(f.d, workers, todo)
    ensures var g := RestoreOne(f, client, ids[client], job, devices, workers[client], c);
            && Inv(g, Anew(h, client, Hashes(c.active)), hash)
            && (g.Fleet? ==> g.d.State? && g.d.nextId == max + 1 && D.Unclaimed(g.d.children, ids, todo - {client})
                             && D.FreshWorkers(g.d, workers, todo - {client}))
  {
    assert !D.Owned(f.d, workers[client]);
    hide D.IdsDistinct, D.OwnedOnce, D.Inv, D.Owned, D.Unclaimed, D.FreshWorkers, D.DistinctIds, D.RestoreOne, CachesCover, Housed, Sound, StandbyOk;
    D.RestoreOneKeeps(f.d, ids, todo, client, min, max, job, devices, workers);
    var g := RestoreOne(f, client, ids[client], job, devices, workers[client], c);
    if g.Fleet? {
      if client in f.d.children {
        RestoreReuses(f, client, ids[client], job, devices, workers[client], c, h, hash);
      } else {
        RestoreSpawns(f, client, ids[client], job, devices, workers[client], c, h, hash);
      }
    }
  }

  lemma {:induction false} RestoreManyKeeps(f: Fleet, order: seq<nat>, ids: map<nat, seq<int>>, todo: set<nat>, min: int, max: int, job: nat, devices: nat,
                                            workers: map<nat, nat>, kernels: map<nat, Checkpoint>, h: Away, hash: Hash)
    requires Inv(f, h, hash) && (forall k :: k in kernels ==> Proper(kernels[k], hash))
    requires f.Fleet? ==> f.d.State? && f.d.nextId == max + 1 && D.Unclaimed(f.d.children, ids, todo) && D.FreshWorkers(f.d, workers, todo)
    requires D.EachOnce(order, todo) && todo <= ids.Keys && D.DistinctIds(ids, min, max)
    ensures Inv(RestoreMany(f, order, ids, job, devices, workers, kernels), AnewMany(h, order, kernels), hash)
    decreases |order|
  {
    hide D.IdsDistinct, D.OwnedOnce, D.Inv, D.Owned, D.Unclaimed, D.DistinctIds, RestoreOne, CachesCover, Housed, Sound, StandbyOk;
    if f.Fleet? && order != [] {
      var client := order[0];
      if client in kernels {
        RestoreOneKeeps(f, ids, todo, client, min, max, job, devices, workers, kernels[client], h, hash);
        D.EachOnceRest(order, todo);
        RestoreManyKeeps(RestoreOne(f, client, ids[client], job, devices, workers[client], kernels[client]), order[1..], ids, todo - {client},
                         min, max, job, devices, workers, kernels, Anew(h, client, Hashes(kernels[client].active)), hash);
      }
    }
  }

  lemma RestoreJobKeeps(f: Fleet, a: D.Action, kernels: map<nat, Checkpoint>, h: Away, hash: Hash)
    requires f.Fleet? && Inv(f, h, hash) && a.RestoreJob? && Sane(f, Request(a, kernels), hash) && f.d.nextId <= a.min <= a.max
    ensures Inv(RestoreMany(f.(d := f.d.(nextId := a.max + 1)), a.order, a.ids, a.job, a.devices, a.workers, kernels), AnewMany(h, a.order, kernels), hash)
  {
    hide D.IdsDistinct, D.OwnedOnce, D.Unclaimed, D.FreshWorkers, D.DistinctIds, D.EachOnce, RestoreMany, CachesCover, Housed, Sound, StandbyOk;
    D.NothingClaimed(f.d, a.ids, a.min, a.max);
    D.IdsBelow(f.d.children, f.d.nextId, a.max + 1);
    D.FreshAnyId(f.d, a.workers, a.ids.Keys, a.max + 1);
    RestoreManyKeeps(f.(d := f.d.(nextId := a.max + 1)), a.order, a.ids, a.ids.Keys, a.min, a.max, a.job, a.devices, a.workers, kernels, h, hash);
  }

  // ---------------------------------------------------------------- whole runs

  lemma RequestKeeps(f: Fleet, a: D.Action, h: Away, hash: Hash)
    requires f.Fleet? && Inv(f, h, hash) && D.Sane(f.d, a) && !a.RestoreJob? && D.Step(f.d, a).State?
    ensures Inv(Effect(f, a, D.Step(f.d, a)), NextAway(f, Request(a, map[]), h, hash), hash)
  {
    hide Inv, Effect, D.Step, D.Sane, Anew, Sees;
    assert f.d.State? by { InvState(f, h, hash); }
    match a
    case NewThread(client, job, devices, spawned) => NewThreadKeeps(f, client, job, devices, spawned, h, hash);
    case DetachBegin(client) => DetachBeginKeeps(f, client, h, hash);
    case DetachEnd(w) => DetachEndKeeps(f, w, h, hash);
    case Attach(client, spawned) => AttachKeeps(f, client, spawned, h, hash);
    case PrepareStandby(clients, spawned) => PrepareKeeps(f, clients, spawned, h, hash);
    case Reap(finished) => ReapKeeps(f, finished, h, hash);
  }

  lemma InvState(f: Fleet, h: Away, hash: Hash)
    requires f.Fleet? && Inv(f, h, hash)
    ensures f.d.State?
  {
  }

  lemma AwayOfRequest(f: Fleet, a: D.Action, kernels: map<nat, Checkpoint>, h: Away, hash: Hash)
    requires !a.RestoreJob?
    ensures NextAway(f, Request(a, kernels), h, hash) == NextAway(f, Request(a, map[]), h, hash)
  {
  }

  lemma AskKeeps(f: Fleet, a: D.Action, kernels: map<nat, Checkpoint>, h: Away, hash: Hash)
    requires f.Fleet? && f.d.State? && Inv(f, h, hash) && D.Sane(f.d, a) && !a.RestoreJob?
    ensures Inv(Step(f, Request(a, kernels), hash), NextAway(f, Request(a, kernels), h, hash), hash)
  {
    hide Inv, Effect, D.Step, D.Sane, NextAway;
    if D.Step(f.d, a).State? {
      RequestKeeps(f, a, h, hash);
      AwayOfRequest(f, a, kernels, h, hash);
    } else {
      HaltedInv(NextAway(f, Request(a, kernels), h, hash), hash);
    }
  }

  lemma RestoreKeeps(f: Fleet, a: D.Action, kernels: map<nat, Checkpoint>, h: Away, hash: Hash)
    requires f.Fleet? && f.d.State? && Inv(f, h, hash) && Sane(f, Request(a, kernels), hash) && a.RestoreJob?
    ensures Inv(Step(f, Request(a, kernels), hash), NextAway(f, Request(a, kernels), h, hash), hash)
  {
    hide Inv, Sane, RestoreMany, AnewMany;
    if f.d.nextId <= a.min <= a.max {
      RestoreJobKeeps(f, a, kernels, h, hash);
    } else {
      HaltedInv(NextAway(f, Request(a, kernels), h, hash), hash);
    }
  }

  lemma StepKeeps(f: Fleet, x: Action, h: Away, hash: Hash)
    requires Inv(f, h, hash) && Sane(f, x, hash)
    ensures Inv(Step(f, x, hash), NextAway(f, x, h, hash), hash)
  {
    hide Inv, Step, NextAway, D.Sane;
    if f.Fleet? {
      InvState(f, h, hash);
      match x
      case Load(client, image) => LoadOrNotKeeps(f, client, image, h, hash);
      case LookUp(client, module_, name) => LookUpOrNotKeeps(f, client, module_, name, h, hash);
      case Request(a, kernels) => if a.RestoreJob? { RestoreKeeps(f, a, kernels, h, hash); } else { AskKeeps(f, a, kernels, h, hash); }
    } else {
      HaltedStays(x, h, hash);
    }
  }

  lemma LoadOrNotKeeps(f: Fleet, client: nat, image: Image, h: Away, hash: Hash)
    requires f.Fleet? && f.d.State? && Inv(f, h, hash)
    ensures Inv(Step(f, Load(client, image), hash), NextAway(f, Load(client, image), h, hash), hash)
  {
    hide Inv, Loads;
    if Runs(f, client) { LoadKeeps(f, client, image, h, hash); }
  }

  lemma LookUpOrNotKeeps(f: Fleet, client: nat, module_: nat, name: nat, h: Away, hash: Hash)
    requires f.Fleet? && f.d.State? && Inv(f, h, hash)
    ensures Inv(Step(f, LookUp(client, module_, name), hash), NextAway(f, LookUp(client, module_, name), h, hash), hash)
  {
    hide Inv;
    if Runs(f, client) { LookUpKeeps(f, client, module_, name, h, hash); }
  }

  lemma HaltedStays(x: Action, h: Away, hash: Hash)
    ensures Step(Halted, x, hash) == Halted && NextAway(Halted, x, h, hash) == h
  {
  }

  lemma HaltedInv(h: Away, hash: Hash)
    ensures Inv(Halted, h, hash)
  {
  }

  ghost predicate AllSane(actions: seq<Action>, hash: Hash) {
    actions != [] ==> AllSane(actions[..|actions| - 1], hash) && Sane(Exec(actions[..|actions| - 1], hash), actions[|actions| - 1], hash)
  }

  lemma StartInv(h: Away, hash: Hash)
    ensures Inv(START, h, hash)
  {
  }

  lemma {:induction false} RunKeeps(actions: seq<Action>, hash: Hash)
    requires AllSane(actions, hash)
    ensures Inv(Exec(actions, hash), AwayAfter(actions, hash), hash)
  {
    hide Inv, Step, NextAway, Sane;
    if actions == [] {
      StartInv(AwayAfter(actions, hash), hash);
    } else {
      var front := actions[..|actions| - 1];
      RunKeeps(front, hash);
      StepKeeps(Exec(front, hash), actions[|actions| - 1], AwayAfter(front, hash), hash);
    }
  }

  /** What an attach finds: for a warm one, the worker's modules and those it missed of the client's. */
  ghost predicate NothingMissed(f: Fleet, h: Away, client: nat) {
    f.Fleet? && D.IsWarm(f.d, client) ==>
      f.d.standby.value.worker in f.tables && h(f.d.standby.value.worker, client) <= f.tables[f.d.standby.value.worker].all.Keys
  }

  /** Main result, over all runs of the daemon with its workers and clients. An attach leaves its client
      with a module behind every hash on its list exactly if it is cold, or every module the client
      loaded elsewhere since the standby worker last saw it is in that worker's table by now. And
      then, unless images at hand collide, the table is what a cold restore gives. */
  lemma AttachFindsModules(actions: seq<Action>, hash: Hash, client: nat, spawned: nat)
    requires AllSane(actions + [Request(D.Attach(client, spawned), map[])], hash)
    requires var f := Exec(actions, hash); f.Fleet? && D.Step(f.d, D.Attach(client, spawned)).State?
    ensures var f, g := Exec(actions, hash), Exec(actions + [Request(D.Attach(client, spawned), map[])], hash);
            && Runs(g, client) && client in f.parked
            && var t := g.tables[WorkerOf(g, client)];
               && (Known(t) <==> NothingMissed(f, AwayAfter(actions, hash), client))
               && (D.IsWarm(f.d, client) && NoCollision(t.all, f.parked[client].modules, hash) ==>
                     (Alike(t, Restored(f.parked[client])) <==> NothingMissed(f, AwayAfter(actions, hash), client)))
               && (!D.IsWarm(f.d, client) ==> t == Restored(f.parked[client]))
  {
    var x := Request(D.Attach(client, spawned), map[]);
    var f, h := Exec(actions, hash), AwayAfter(actions, hash);
    ExecNext(actions, x, hash);
    hide Exec, AwayAfter;
    RunKeeps(actions, hash);
    AttachStep(f, client, spawned, h, hash);
  }

  lemma ExecNext(actions: seq<Action>, x: Action, hash: Hash)
    ensures Exec([], hash) == START && Exec(actions + [x], hash) == Step(Exec(actions, hash), x, hash)
    ensures AllSane(actions + [x], hash) <==> AllSane(actions, hash) && Sane(Exec(actions, hash), x, hash)
  {
    hide Step, Sane;
    assert (actions + [x])[..|actions|] == actions;
  }

  lemma AttachStep(f: Fleet, client: nat, spawned: nat, h: Away, hash: Hash)
    requires f.Fleet? && Inv(f, h, hash) && Sane(f, Request(D.Attach(client, spawned), map[]), hash)
    requires f.d.State? && D.Step(f.d, D.Attach(client, spawned)).State?
    ensures var g := Step(f, Request(D.Attach(client, spawned), map[]), hash);
            && Runs(g, client) && client in f.parked
            && var t := g.tables[WorkerOf(g, client)];
               && (Known(t) <==> NothingMissed(f, h, client))
               && (D.IsWarm(f.d, client) && NoCollision(t.all, f.parked[client].modules, hash) ==>
                     (Alike(t, Restored(f.parked[client])) <==> NothingMissed(f, h, client)))
               && (!D.IsWarm(f.d, client) ==> t == Restored(f.parked[client]))
  {
    hide D.IdsDistinct, D.OwnedOnce, D.Inv, D.Owned, CachesCover, Sound, Housed, Alike, NoCollision, Known, Proper;
    AttachKeeps(f, client, spawned, h, hash);
    ParkedHere(f, client, h, hash);
    if D.IsWarm(f.d, client) {
      var w := f.d.standby.value.worker;
      StandbyHere(f, client, h, hash);
      WarmIsCold(f.tables[w], f.parked[client], hash);
      HoldsIfNothingMissed(f, h, client, hash);
    } else {
      ColdKnows(f.parked[client], hash);
    }
  }

  lemma ColdKnows(c: Checkpoint, hash: Hash)
    requires Proper(c, hash)
    ensures Known(Restored(c))
  {
    assert forall h :: h in c.active ==> h in c.modules.Keys;
  }

  lemma HoldsIfNothingMissed(f: Fleet, h: Away, client: nat, hash: Hash)
    requires f.Fleet? && f.d.State? && D.IsWarm(f.d, client) && client in f.d.children && f.d.children[client].worker.None? && client in f.parked
    requires Proper(f.parked[client], hash) && Covers(f.d.children, f.tables, f.parked, h, f.d.standby.value.worker, client)
    ensures f.d.standby.value.worker in f.tables
    ensures Holds(f.tables[f.d.standby.value.worker].all, f.parked[client]) <==> NothingMissed(f, h, client)
  {
    assert f.parked[client].modules.Keys == Hashes(f.parked[client].active);
  }

  // ---------------------------------------------------------------- modules stay registered

  ghost predicate AllKnown(children: map<nat, D.Child>, tables: map<nat, Table>) {
    forall k :: k in children && children[k].worker.Some? && children[k].worker.value in tables ==> Known(tables[children[k].worker.value])
  }

  /** Every running client has a module behind every hash on its list. */
  ghost predicate Serves(f: Fleet) { f.Fleet? && f.d.State? ==> AllKnown(f.d.children, f.tables) }

  lemma ServesRuns(f: Fleet, client: nat)
    requires Serves(f) && Runs(f, client)
    ensures Known(f.tables[WorkerOf(f, client)])
  {
  }

  /** Nobody else runs on a worker whose table changes. */
  lemma KnownUpdate(children: map<nat, D.Child>, tables: map<nat, Table>, children': map<nat, D.Child>, client: nat, w: nat, t: Table)
    requires AllKnown(children, tables) && Known(t)
    requires forall k :: k in children' && k != client ==> k in children && children'[k].worker == children[k].worker && children[k].worker != Some(w)
    requires client in children' && children'[client].worker.Some? ==> children'[client].worker == Some(w)
    ensures AllKnown(children', tables[w := t])
  {
    hide Known;
  }

  lemma KnownAlike(children: map<nat, D.Child>, tables: map<nat, Table>, children': map<nat, D.Child>)
    requires AllKnown(children, tables)
    requires forall k :: k in children' && children'[k].worker.Some? ==> k in children && children'[k].worker == children[k].worker
    ensures AllKnown(children', tables)
  {
    hide Known;
  }

  lemma Alone(d: D.State, client: nat, w: nat)
    requires d.State? && D.OwnedOnce(d.children, d.standby, d.detaching) && client in d.children && d.children[client].worker == Some(w)
    ensures forall k :: k in d.children && k != client ==> d.children[k].worker != Some(w)
  {
  }

  lemma LoadServes(f: Fleet, client: nat, image: Image, h: Away, hash: Hash)
    requires f.Fleet? && Inv(f, h, hash) && Serves(f) && Runs(f, client)
    ensures Serves(Step(f, Load(client, image), hash))
  {
    hide D.IdsDistinct, D.OwnedOnce, CachesCover, Housed, Sound, StandbyOk;
    var w := WorkerOf(f, client);
    ServesRuns(f, client);
    Alone(f.d, client, w);
    KnownUpdate(f.d.children, f.tables, f.d.children, client, w, Loaded(f.tables[w], hash, image));
  }

  lemma LookUpServes(f: Fleet, client: nat, module_: nat, name: nat, h: Away, hash: Hash)
    requires f.Fleet? && Inv(f, h, hash) && Serves(f) && Runs(f, client)
    ensures Serves(Step(f, LookUp(client, module_, name), hash))
  {
    hide D.IdsDistinct, D.OwnedOnce, CachesCover, Housed, Sound, StandbyOk;
    var w := WorkerOf(f, client);
    ServesRuns(f, client);
    Alone(f.d, client, w);
    KnownUpdate(f.d.children, f.tables, f.d.children, client, w, Found(f.tables[w], module_, name));
  }

  lemma AttachServes(f: Fleet, client: nat, spawned: nat, h: Away, hash: Hash)
    requires f.Fleet? && f.d.State? && Inv(f, h, hash) && Serves(f) && Sane(f, Request(D.Attach(client, spawned), map[]), hash)
    requires D.Step(f.d, D.Attach(client, spawned)).State? && NothingMissed(f, h, client)
    ensures Serves(Effect(f, D.Attach(client, spawned), D.Step(f.d, D.Attach(client, spawned))))
  {
    AttachStep(f, client, spawned, h, hash);
    hide D.IdsDistinct, D.OwnedOnce, D.Owned, CachesCover, Housed, Sound, StandbyOk, Known, Alike, NoCollision, NothingMissed;
    var g := Step(f, Request(D.Attach(client, spawned), map[]), hash);
    var w := WorkerOf(g, client);
    if D.IsWarm(f.d, client) { D.StandbyAlone(f.d); } else { D.NotRunning(f.d, spawned); }
    KnownUpdate(f.d.children, f.tables, g.d.children, client, w, g.tables[w]);
    assert g.tables == f.tables[w := g.tables[w]];
  }

  lemma AskServes(f: Fleet, a: D.Action, kernels: map<nat, Checkpoint>, h: Away, hash: Hash)
    requires f.Fleet? && f.d.State? && Inv(f, h, hash) && Serves(f) && Sane(f, Request(a, kernels), hash) && !a.RestoreJob?
    requires a.Attach? ==> NothingMissed(f, h, a.client)
    ensures Serves(Step(f, Request(a, kernels), hash))
  {
    hide D.IdsDistinct, D.OwnedOnce, D.Owned, D.Inv, CachesCover, Housed, Sound, StandbyOk, Known, NothingMissed, Saved;
    var d := D.Step(f.d, a);
    if d.State? {
      match a
      case NewThread(client, _, _, spawned) =>
        if client in f.d.children {
          KnownAlike(f.d.children, f.tables, d.children);
        } else {
          D.NotRunning(f.d, spawned);
          EmptyKnown();
          KnownUpdate(f.d.children, f.tables, d.children, client, spawned, EMPTY);
        }
      case Attach(client, spawned) => AttachServes(f, client, spawned, h, hash);
      case PrepareStandby(clients, spawned) =>
        D.NotRunning(f.d, spawned);
        StandbyTableKnown(f.parked, clients);
        UnusedUpdate(f.d.children, f.tables, spawned, Table(RegisteredAll(map[], f.parked, clients), [], {}));
      case DetachBegin(_) => KnownAlike(f.d.children, f.tables, d.children);
      case DetachEnd(_) => KnownAlike(f.d.children, f.tables, d.children);
      case Reap(_) => KnownAlike(f.d.children, f.tables, d.children);
    }
  }

  lemma EmptyKnown()
    ensures Known(EMPTY)
  {
  }

  lemma StandbyTableKnown(parked: map<nat, Checkpoint>, clients: seq<nat>)
    ensures Known(Table(RegisteredAll(map[], parked, clients), [], {}))
  {
  }

  lemma UnusedUpdate(children: map<nat, D.Child>, tables: map<nat, Table>, w: nat, t: Table)
    requires AllKnown(children, tables) && Known(t) && forall k :: k in children ==> children[k].worker != Some(w)
    ensures AllKnown(children, tables[w := t])
  {
    hide Known;
  }

  lemma RestoreOneServes(f: Fleet, client: nat, ids: seq<int>, job: nat, devices: nat, worker: nat, c: Checkpoint, h: Away, hash: Hash)
    requires f.Fleet? && f.d.State? && Inv(f, h, hash) && Serves(f) && Proper(c, hash)
    requires client in f.d.children || !D.Owned(f.d, worker)
    ensures Serves(RestoreOne(f, client, ids, job, devices, worker, c))
  {
    hide D.IdsDistinct, D.OwnedOnce, D.Owned, CachesCover, Housed, Sound, StandbyOk, Known, Proper;
    var g := RestoreOne(f, client, ids, job, devices, worker, c);
    if g.Fleet? {
      var w := g.d.children[client].worker.value;
      ColdKnows(c, hash);
      if client in f.d.children { Alone(f.d, client, w); } else { D.NotRunning(f.d, worker); }
      KnownUpdate(f.d.children, f.tables, g.d.children, client, w, Restored(c));
    }
  }

  lemma {:induction false} RestoreManyServes(f: Fleet, order: seq<nat>, ids: map<nat, seq<int>>, todo: set<nat>, min: int, max: int, job: nat, devices: nat,
                                             workers: map<nat, nat>, kernels: map<nat, Checkpoint>, h: Away, hash: Hash)
    requires Inv(f, h, hash) && Serves(f) && (forall k :: k in kernels ==> Proper(kernels[k], hash))
    requires f.Fleet? ==> f.d.State? && f.d.nextId == max + 1 && D.Unclaimed(f.d.children, ids, todo) && D.FreshWorkers(f.d, workers, todo)
    requires D.EachOnce(order, todo) && todo <= ids.Keys && D.DistinctIds(ids, min, max)
    ensures Serves(RestoreMany(f, order, ids, job, devices, workers, kernels))
    decreases |order|
  {
    hide D.Inv, D.Unclaimed, D.DistinctIds, RestoreOne, CachesCover, Housed, Sound, StandbyOk, Serves, D.Owned, Proper;
    if f.Fleet? && order != [] && order[0] in kernels {
      var client := order[0];
      assert client in todo && !D.Owned(f.d, workers[client]);
      RestoreOneKeeps(f, ids, todo, client, min, max, job, devices, workers, kernels[client], h, hash);
      RestoreOneServes(f, client, ids[client], job, devices, workers[client], kernels[client], h, hash);
      D.EachOnceRest(order, todo);
      RestoreManyServes(RestoreOne(f, client, ids[client], job, devices, workers[client], kernels[client]), order[1..], ids, todo - {client},
                        min, max, job, devices, workers, kernels, Anew(h, client, Hashes(kernels[client].active)), hash);
    } else {
      HaltedServes();
    }
  }

  lemma HaltedServes()
    ensures Serves(Halted)
  {
  }

  lemma RestoreServes(f: Fleet, a: D.Action, kernels: map<nat, Checkpoint>, h: Away, hash: Hash)
    requires f.Fleet? && f.d.State? && Inv(f, h, hash) && Serves(f) && Sane(f, Request(a, kernels), hash) && a.RestoreJob?
    ensures Serves(Step(f, Request(a, kernels), hash))
  {
    hide D.IdsDistinct, D.OwnedOnce, D.Unclaimed, D.FreshWorkers, D.DistinctIds, D.EachOnce, RestoreMany, CachesCover, Housed, Sound, StandbyOk;
    if f.d.nextId <= a.min <= a.max {
      D.NothingClaimed(f.d, a.ids, a.min, a.max);
      D.IdsBelow(f.d.children, f.d.nextId, a.max + 1);
      D.FreshAnyId(f.d, a.workers, a.ids.Keys, a.max + 1);
      RestoreManyServes(f.(d := f.d.(nextId := a.max + 1)), a.order, a.ids, a.ids.Keys, a.min, a.max, a.job, a.devices, a.workers, kernels, h, hash);
    }
  }

  /** No attach of the run missed a module. */
  ghost predicate NeverMissed(actions: seq<Action>, hash: Hash) {
    actions != [] ==>
      var front, last := actions[..|actions| - 1], actions[|actions| - 1];
      && NeverMissed(front, hash)
      && (last.Request? && last.a.Attach? ==> NothingMissed(Exec(front, hash), AwayAfter(front, hash), last.a.client))
  }

  lemma StepServes(f: Fleet, x: Action, h: Away, hash: Hash)
    requires Inv(f, h, hash) && Sane(f, x, hash) && Serves(f) && (x.Request? && x.a.Attach? ==> NothingMissed(f, h, x.a.client))
    ensures Serves(Step(f, x, hash))
  {
    hide Inv, Sane, NothingMissed, Serves;
    if f.Fleet? {
      InvState(f, h, hash);
      match x
      case Load(client, image) => if Runs(f, client) { LoadServes(f, client, image, h, hash); }
      case LookUp(client, module_, name) => if Runs(f, client) { LookUpServes(f, client, module_, name, h, hash); }
      case Request(a, kernels) => if a.RestoreJob? { RestoreServes(f, a, kernels, h, hash); } else { AskServes(f, a, kernels, h, hash); }
    }
  }

  /** Main result, second half: through every run of loads, detaches, attaches, restores and reaping in
      which no attach missed a module, every running client keeps a module behind every hash on its
      list. */
  lemma {:induction false} ModulesStayRegistered(actions: seq<Action>, hash: Hash)
    requires AllSane(actions, hash) && NeverMissed(actions, hash)
    ensures Serves(Exec(actions, hash))
  {
    hide Inv, Step, Sane, NothingMissed, Serves, AwayAfter;
    if actions == [] {
      StartServes();
    } else {
      var front := actions[..|actions| - 1];
      ModulesStayRegistered(front, hash);
      RunKeeps(front, hash);
      StepServes(Exec(front, hash), actions[|actions| - 1], AwayAfter(front, hash), hash);
    }
  }

  lemma StartServes()
    ensures Serves(START)
  {
  }

  /** So a detach the daemon accepts never fails on the kernel table; and in any run it fails exactly
      for a client whose list has a hash without a module. */
  lemma DetachNeverFails(actions: seq<Action>, hash: Hash, client: nat)
    requires AllSane(actions, hash)
    requires var f := Exec(actions, hash); f.Fleet? && f.d.State? && D.Step(f.d, D.DetachBegin(client)).State?
    ensures var f := Exec(actions, hash);
            && Runs(f, client)
            && (Step(f, Ask(D.DetachBegin(client)), hash).Fleet? <==> Known(f.tables[WorkerOf(f, client)]))
            && (NeverMissed(actions, hash) ==> Step(f, Ask(D.DetachBegin(client)), hash).Fleet?)
  {
    hide Exec, AwayAfter, AllSane, NeverMissed, Inv;
    var f := Exec(actions, hash);
    RunKeeps(actions, hash);
    DetachBeginKeeps(f, client, AwayAfter(actions, hash), hash);
    if NeverMissed(actions, hash) {
      ModulesStayRegistered(actions, hash);
      ServesRuns(f, client);
    }
  }

  /** Nor does looking a function up in a module the client loaded, on this worker or another. */
  lemma LookUpNeverFails(actions: seq<Action>, hash: Hash, client: nat, module_: nat, name: nat)
    requires AllSane(actions, hash) && NeverMissed(actions, hash)
    requires var f := Exec(actions, hash); Runs(f, client) && module_ in f.tables[WorkerOf(f, client)].active
    ensures Step(Exec(actions, hash), LookUp(client, module_, name), hash).Fleet?
  {
    hide Exec, AllSane, NeverMissed;
    ModulesStayRegistered(actions, hash);
    ServesRuns(Exec(actions, hash), client);
  }

  /** And the function looked up is remembered for the next checkpoint; nothing else changes. */
  lemma LookUpIsRemembered(f: Fleet, hash: Hash, client: nat, module_: nat, name: nat)
    requires f.Fleet? && f.d.State? && Runs(f, client) && Step(f, LookUp(client, module_, name), hash).Fleet?
    ensures var g := Step(f, LookUp(client, module_, name), hash);
            && Runs(g, client) && g.d == f.d && g.parked == f.parked && g.tables.Keys == f.tables.Keys
            && (forall w :: w in f.tables && w != WorkerOf(f, client) ==> g.tables[w] == f.tables[w])
            && var t, u := f.tables[WorkerOf(f, client)], g.tables[WorkerOf(f, client)];
               u.all == t.all && u.active == t.active && (forall x :: x in u.functions <==> x in t.functions || x == (module_, name))
  {
  }

  // ---------------------------------------------------------------- a standby left behind

  const NONE: Checkpoint := Checkpoint([], {}, map[])

  ghost function Ask(a: D.Action): Action { Request(a, map[]) }

  ghost predicate Reached(actions: seq<Action>, f: Fleet, hash: Hash) { AllSane(actions, hash) && Exec(actions, hash) == f }

  lemma Then(actions: seq<Action>, f: Fleet, x: Action, g: Fleet, hash: Hash) returns (r: seq<Action>)
    requires Reached(actions, f, hash) && Sane(f, x, hash) && Step(f, x, hash) == g
    ensures Reached(r, g, hash)
  {
    hide Step, Sane, Exec, AllSane;
    r := actions + [x];
    ExecNext(actions, x, hash);
  }

  lemma SaneAsk(f: Fleet, a: D.Action, hash: Hash)
    requires f.Fleet? && f.d.State? && D.Sane(f.d, a)
    ensures Sane(f, Ask(a), hash)
  {
  }

  /** Two clients start, each on a worker of its own. */
  lemma TwoStart(hash: Hash) returns (r: seq<Action>)
    ensures Reached(r, Fleet(D.State(2, D.Kids(Some(10), Some(20)), None, map[], map[]), map[10 := EMPTY, 20 := EMPTY], map[]), hash)
  {
    var a, b := D.NewThread(1, 0, 0, 10), D.NewThread(2, 0, 0, 20);
    var d1 := D.State(1, map[1 := D.Child(0, 0, Some(10), [0])], None, map[], map[]);
    var f1 := Fleet(d1, map[10 := EMPTY], map[]);
    var f2 := Fleet(D.State(2, D.Kids(Some(10), Some(20)), None, map[], map[]), map[10 := EMPTY, 20 := EMPTY], map[]);
    SaneAsk(START, a, hash);
    assert [] + [0] == [0] && D.INIT.caches - {10} == map[];
    assert D.Step(D.INIT, a).children == d1.children;
    assert D.Step(D.INIT, a) == d1;
    r := Then([], START, Ask(a), f1, hash);
    hide Reached;
    assert !D.Owned(d1, 20);
    SaneAsk(f1, b, hash);
    assert [] + [1] == [1] && d1.caches - {20} == map[];
    assert D.Step(d1, b).children == f2.d.children;
    assert D.Step(d1, b) == f2.d;
    r := Then(r, f1, Ask(b), f2, hash);
  }

  /** A client with no modules is parked by a worker that keeps no cache. */
  lemma Parks(actions: seq<Action>, f: Fleet, client: nat, w: nat, t: Table, hash: Hash) returns (r: seq<Action>)
    requires Reached(actions, f, hash) && f.Fleet? && f.d.State? && client in f.d.children && f.d.children[client].worker == Some(w)
    requires |f.d.children[client].ids| == 1 && w !in f.d.detaching && w !in f.d.caches && w in f.tables && f.tables[w] == t && Known(t)
    ensures Reached(r, f.(d := f.d.(children := f.d.children[client := f.d.children[client].(worker := None)]),
                          parked := f.parked[client := Saved(t)]), hash)
  {
    hide Reached, Known, Saved;
    var begin, end := D.DetachBegin(client), D.DetachEnd(w);
    var d1 := f.d.(children := f.d.children[client := f.d.children[client].(worker := None)], detaching := f.d.detaching[w := client]);
    var f1 := f.(d := d1, parked := f.parked[client := Saved(t)]);
    SaneAsk(f, begin, hash);
    assert D.Step(f.d, begin) == d1;
    r := Then(actions, f, Ask(begin), f1, hash);
    var f2 := f1.(d := d1.(detaching := f.d.detaching));
    SaneAsk(f1, end, hash);
    assert d1.detaching - {w} == f.d.detaching;
    assert D.Step(d1, end) == f2.d;
    r := Then(r, f1, Ask(end), f2, hash);
  }

  /** The standby parks the client it ran, and is the standby again with that client in its cache. */
  lemma StandbyParks(actions: seq<Action>, f: Fleet, client: nat, w: nat, hash: Hash) returns (r: seq<Action>)
    requires Reached(actions, f, hash) && f.Fleet? && f.d.State? && client in f.d.children && f.d.children[client].worker == Some(w)
    requires |f.d.children[client].ids| == 1 && w !in f.d.detaching && w in f.d.caches && f.d.standby.None?
    requires w in f.tables && Known(f.tables[w])
    ensures var cache := f.d.caches[w] + {client};
            Reached(r, f.(d := f.d.(children := f.d.children[client := f.d.children[client].(worker := None)],
                                    standby := Some(D.Standby(w, cache)), caches := f.d.caches[w := cache]),
                          parked := f.parked[client := Saved(f.tables[w])]), hash)
  {
    hide Reached, Known, Saved;
    var begin, end := D.DetachBegin(client), D.DetachEnd(w);
    var cache := f.d.caches[w] + {client};
    var d1 := f.d.(children := f.d.children[client := f.d.children[client].(worker := None)], detaching := f.d.detaching[w := client]);
    var f1 := f.(d := d1, parked := f.parked[client := Saved(f.tables[w])]);
    SaneAsk(f, begin, hash);
    assert D.Step(f.d, begin) == d1;
    r := Then(actions, f, Ask(begin), f1, hash);
    var f2 := f1.(d := d1.(detaching := f.d.detaching, standby := Some(D.Standby(w, cache)), caches := f.d.caches[w := cache]));
    SaneAsk(f1, end, hash);
    assert d1.detaching - {w} == f.d.detaching;
    assert D.Step(d1, end) == f2.d;
    r := Then(r, f1, Ask(end), f2, hash);
  }

  /** Both clients parked, and a standby prepared for them. */
  lemma BothParked(hash: Hash) returns (r: seq<Action>)
    ensures Reached(r, Fleet(D.State(2, D.Kids(None, None), Some(D.Standby(30, {1, 2})), map[], map[30 := {1, 2}]),
                             map[10 := EMPTY, 20 := EMPTY, 30 := EMPTY], map[1 := NONE, 2 := NONE]), hash)
  {
    hide Reached;
    r := TwoStart(hash);
    var tables := map[10 := EMPTY, 20 := EMPTY];
    assert Saved(EMPTY) == NONE;
    r := Parks(r, Fleet(D.State(2, D.Kids(Some(10), Some(20)), None, map[], map[]), tables, map[]), 1, 10, EMPTY, hash);
    assert D.Kids(Some(10), Some(20))[1 := D.Child(0, 0, None, [0])] == D.Kids(None, Some(20));
    r := Parks(r, Fleet(D.State(2, D.Kids(None, Some(20)), None, map[], map[]), tables, map[1 := NONE]), 2, 20, EMPTY, hash);
    assert D.Kids(None, Some(20))[2 := D.Child(0, 0, None, [1])] == D.Kids(None, None);
    var d := D.State(2, D.Kids(None, None), None, map[], map[]);
    var f := Fleet(d, tables, map[1 := NONE, 2 := NONE]);
    var a := D.PrepareStandby([1, 2], 30);
    assert !D.Owned(d, 30);
    SaneAsk(f, a, hash);
    assert (set k: nat | k in [1, 2]) == {1, 2};
    assert D.Step(d, a) == D.State(2, D.Kids(None, None), Some(D.Standby(30, {1, 2})), map[], map[30 := {1, 2}]);
    NothingRegistered(f.parked);
    r := Then(r, f, Ask(a), Fleet(D.Step(d, a), tables[30 := EMPTY], f.parked), hash);
    assert tables[30 := EMPTY] == map[10 := EMPTY, 20 := EMPTY, 30 := EMPTY];
  }

  lemma NothingRegistered(parked: map<nat, Checkpoint>)
    requires parked == map[1 := NONE, 2 := NONE]
    ensures Table(RegisteredAll(map[], parked, [1, 2]), [], {}) == EMPTY
  {
    assert [1, 2][..1] == [1] && [1][..0] == [];
    assert RegisteredAll(map[], parked, [1]) == map[];
  }

  /** The first client goes to the standby, the second meanwhile to a worker of its own. */
  lemma BothAttached(hash: Hash) returns (r: seq<Action>)
    ensures Reached(r, Fleet(D.State(2, D.Kids(Some(30), Some(40)), None, map[], map[30 := {2}]),
                             map[10 := EMPTY, 20 := EMPTY, 30 := EMPTY, 40 := EMPTY], map[1 := NONE, 2 := NONE]), hash)
  {
    hide Reached;
    r := BothParked(hash);
    var tables := map[10 := EMPTY, 20 := EMPTY, 30 := EMPTY];
    var parked := map[1 := NONE, 2 := NONE];
    var d0 := D.State(2, D.Kids(None, None), Some(D.Standby(30, {1, 2})), map[], map[30 := {1, 2}]);
    var d1 := D.State(2, D.Kids(Some(30), None), None, map[], map[30 := {2}]);
    var d2 := D.State(2, D.Kids(Some(30), Some(40)), None, map[], map[30 := {2}]);
    assert !D.Owned(d0, 40) && !D.Owned(d1, 40);
    SaneAsk(Fleet(d0, tables, parked), D.Attach(1, 40), hash);
    assert {1, 2} - {1} == {2};
    assert D.Step(d0, D.Attach(1, 40)).children == d1.children;
    assert D.Step(d0, D.Attach(1, 40)) == d1;
    assert tables[30 := Attached(EMPTY, NONE)] == tables;
    r := Then(r, Fleet(d0, tables, parked), Ask(D.Attach(1, 40)), Fleet(d1, tables, parked), hash);
    SaneAsk(Fleet(d1, tables, parked), D.Attach(2, 40), hash);
    assert map[30 := {2}] - {40} == map[30 := {2}];
    assert D.Step(d1, D.Attach(2, 40)).children == d2.children;
    assert D.Step(d1, D.Attach(2, 40)) == d2;
    assert tables[40 := Restored(NONE)] == map[10 := EMPTY, 20 := EMPTY, 30 := EMPTY, 40 := EMPTY];
    r := Then(r, Fleet(d1, tables, parked), Ask(D.Attach(2, 40)), Fleet(d2, tables[40 := EMPTY], parked), hash);
  }

  /** It happens: the second client loads a module on its own worker; both are parked; the first worker
      is the standby again, and the second client attached to it finds its module missing. */
  lemma StandbyIsLeftBehind(hash: Hash, image: Image) returns (actions: seq<Action>)
    ensures AllSane(actions, hash)
    ensures var f := Exec(actions, hash); Runs(f, 2) && !Known(f.tables[WorkerOf(f, 2)])
  {
    hide Reached, Saved, D.Owned;
    var r := BothAttached(hash);
    var tables := map[10 := EMPTY, 20 := EMPTY, 30 := EMPTY, 40 := EMPTY];
    var parked := map[1 := NONE, 2 := NONE];
    var d := D.State(2, D.Kids(Some(30), Some(40)), None, map[], map[30 := {2}]);
    var t := Loaded(EMPTY, hash, image);
    r := Then(r, Fleet(d, tables, parked), Load(2, image), Fleet(d, tables[40 := t], parked), hash);
    assert Known(t);
    r := Parks(r, Fleet(d, tables[40 := t], parked), 2, 40, t, hash);
    var f := Fleet(d.(children := d.children[2 := d.children[2].(worker := None)]), tables[40 := t], parked[2 := Saved(t)]);
    r := StandbyParks(r, f, 1, 30, hash);
    var g := f.(d := f.d.(children := f.d.children[1 := f.d.children[1].(worker := None)],
                          standby := Some(D.Standby(30, {2} + {1})), caches := map[30 := {2}][30 := {2} + {1}]),
                parked := f.parked[1 := Saved(EMPTY)]);
    LeftBehindEnds(g);
    SaneAsk(g, D.Attach(2, 50), hash);
    actions := Then(r, g, Ask(D.Attach(2, 50)), Step(g, Ask(D.Attach(2, 50)), hash), hash);
    ReachedMeans(actions, Step(g, Ask(D.Attach(2, 50)), hash), hash);
    MissingModule(g, t, hash);
  }

  lemma ReachedMeans(actions: seq<Action>, f: Fleet, hash: Hash)
    requires Reached(actions, f, hash)
    ensures AllSane(actions, hash) && Exec(actions, hash) == f
  {
  }

  lemma LeftBehindEnds(g: Fleet)
    requires g.Fleet? && g.d.State? && g.d.children.Keys == {1, 2} && g.d.children[1].worker.None? && g.d.children[2].worker.None?
    requires g.d.standby.Some? && g.d.standby.value.worker == 30 && g.d.detaching == map[]
    ensures D.Sane(g.d, D.Attach(2, 50))
  {
  }

  lemma MissingModule(g: Fleet, t: Table, hash: Hash)
    requires g.Fleet? && g.d.State? && 2 in g.d.children && g.d.children[2].worker.None? && |g.d.children[2].ids| == 1
    requires g.d.standby.Some? && g.d.standby.value.worker == 30 && 2 in g.d.standby.value.clients
    requires 30 in g.tables && g.tables[30] == EMPTY && 2 in g.parked && Known(t) && g.parked[2] == Saved(t) && t.active != []
    ensures var f := Step(g, Ask(D.Attach(2, 50)), hash); Runs(f, 2) && !Known(f.tables[WorkerOf(f, 2)])
  {
    assert t.active[0] in Saved(t).active;
  }
}
