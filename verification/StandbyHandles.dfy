/** The daemon with its clients' handle tables: the table a worker runs a client on, the table dumped
    into the snapshot, and the table a standby worker keeps in its cache and prefers over the dumped
    one. Replaying a dumped log gives the dumped table exactly if it is replayable, which HandleLog
    proves; here that is one step. */
module StandbyHandles {
  import opened Options
  import opened Filters
  import D = Daemon
  import Log = HandleLog

  /** A handle table, without the driver objects behind it. */
  type Table = Log.State<()>

  datatype Site = Site(d: D.State, running: map<nat, Table>, kept: map<(nat, nat), Table>, dumped: map<nat, Table>) | Halted

  /** A request to the daemon, with the tables found in a restored directory; or a call of a running
      client that creates, modifies, uses or destroys handles. */
  datatype Action = Request(a: D.Action, found: map<nat, Table>) | Call(client: nat, op: Log.Op)

  ghost function NoTable(): Table { Log.Start() }

  ghost function Begin(): Site { Site(D.INIT, map[], map[], map[]) }

  // ---------------------------------------------------------------- steps

  ghost predicate Replays(t: Table) { t.State? && Log.Replayable(t.log, t.live) }

  /** A new process has kept nothing. */
  ghost function Without(kept: map<(nat, nat), Table>, worker: nat): map<(nat, nat), Table> {
    map p | p in kept && p.0 != worker :: kept[p]
  }

  /** The table a warm attach goes on with: the kept one if it holds handles, else the replayed dump. */
  ghost predicate UsesKept(f: Site, client: nat) {
    && f.Site? && D.IsWarm(f.d, client) && (f.d.standby.value.worker, client) in f.kept
    && f.kept[(f.d.standby.value.worker, client)].State? && f.kept[(f.d.standby.value.worker, client)].live != {}
  }

  ghost function Resumed(f: Site, client: nat): Table
    requires f.Site? && client in f.dumped
  {
    if UsesKept(f, client) then f.kept[(f.d.standby.value.worker, client)] else f.dumped[client]
  }

  ghost function RestoreOne(f: Site, client: nat, ids: seq<int>, job: nat, devices: nat, worker: nat, t: Table): Site
    requires f.Site? && f.d.State?
  {
    var d := D.RestoreOne(f.d, client, ids, job, devices, worker);
    if d.Panicked? || !Replays(t) then Halted
    else
      var w := d.children[client].worker.value;
      f.(d := d, running := f.running[w := t], kept := if client in f.d.children then f.kept else Without(f.kept, worker))
  }

  ghost function RestoreMany(f: Site, order: seq<nat>, ids: map<nat, seq<int>>, job: nat, devices: nat, workers: map<nat, nat>,
                             found: map<nat, Table>): Site
    decreases |order|
  {
    if f.Halted? || f.d.Panicked? || order == [] then f
    else if order[0] !in ids || order[0] !in workers || order[0] !in found then Halted
    else
      RestoreMany(RestoreOne(f, order[0], ids[order[0]], job, devices, workers[order[0]], found[order[0]]),
                  order[1..], ids, job, devices, workers, found)
  }

  ghost predicate Runs(f: Site, client: nat) {
    && f.Site? && f.d.State? && client in f.d.children && f.d.children[client].worker.Some?
    && f.d.children[client].worker.value in f.running
  }

  ghost function WorkerOf(f: Site, client: nat): nat
    requires Runs(f, client)
  {
    f.d.children[client].worker.value
  }

  ghost function Effect(f: Site, a: D.Action, d: D.State): Site
    requires f.Site? && f.d.State? && d.State? && d == D.Step(f.d, a)
  {
    var g := f.(d := d);
    match a
    case NewThread(client, _, _, spawned) =>
      if client in f.d.children then g else g.(running := f.running[spawned := NoTable()], kept := Without(f.kept, spawned))
    case DetachBegin(client) =>
      var w := f.d.children[client].worker.value;
      if w !in f.running then Halted
      else
        g.(dumped := f.dumped[client := f.running[w]],
           kept := if w in f.d.caches then f.kept[(w, client) := f.running[w]] else f.kept)
    case Attach(client, spawned) =>
      if client !in f.dumped || (!UsesKept(f, client) && !Replays(f.dumped[client])) then Halted
      else if D.IsWarm(f.d, client) then
        var w := f.d.standby.value.worker;
        g.(running := f.running[w := Resumed(f, client)], kept := f.kept - {(w, client)})
      else g.(running := f.running[spawned := f.dumped[client]], kept := Without(f.kept, spawned))
    case PrepareStandby(_, spawned) => g.(kept := Without(f.kept, spawned))
    case _ => g
  }

  ghost function Step(f: Site, x: Action): Site {
    if f.Halted? || f.d.Panicked? then f else match x
      case Call(client, op) =>
        if !Runs(f, client) then f
        else
          var t := Log.Step(Log.Plain(), f.running[WorkerOf(f, client)], op);
          if t.Panicked? then Halted else f.(running := f.running[WorkerOf(f, client) := t])
      case Request(a, found) =>
        if a.RestoreJob? then
          if !(f.d.nextId <= a.min <= a.max) then Halted
          else RestoreMany(f.(d := f.d.(nextId := a.max + 1)), a.order, a.ids, a.job, a.devices, a.workers, found)
        else
          var d := D.Step(f.d, a);
          if d.Panicked? then Halted else Effect(f, a, d)
  }

  ghost function Exec(actions: seq<Action>): Site {
    if actions == [] then Begin() else Step(Exec(actions[..|actions| - 1]), actions[|actions| - 1])
  }

  // ---------------------------------------------------------------- what a worker has missed

  /** For a worker and a client: how the client's table came to be since this worker kept it. */
  datatype Since = Since(base: Option<Table>, ops: seq<Log.Op>)   // base: set if the client began anew

  type Drift = (nat, nat) -> Since

  ghost function Anew(h: Drift, client: nat, t: Table): Drift {
    (w: nat, k: nat) => if k == client then Since(Some(t), []) else h(w, k)
  }

  ghost function Keeps(h: Drift, worker: nat, client: nat): Drift {
    (w: nat, k: nat) => if w == worker && k == client then Since(None, []) else h(w, k)
  }

  ghost function Calls(h: Drift, worker: nat, client: nat, op: Log.Op): Drift {
    (w: nat, k: nat) => if k == client && w != worker then h(w, k).(ops := h(w, k).ops + [op]) else h(w, k)
  }

  ghost function AnewMany(h: Drift, order: seq<nat>, found: map<nat, Table>): Drift {
    if order == [] then h
    else AnewMany(Anew(h, order[0], if order[0] in found then found[order[0]] else NoTable()), order[1..], found)
  }

  ghost function NextDrift(f: Site, x: Action, h: Drift): Drift {
    if f.Halted? || f.d.Panicked? then h else match x
      case Call(client, op) => if Runs(f, client) then Calls(h, WorkerOf(f, client), client, op) else h
      case Request(a, found) =>
        match a
        case NewThread(client, _, _, _) => if client in f.d.children then h else Anew(h, client, NoTable())
        case RestoreJob(order, _, _, _, _, _, _) => AnewMany(h, order, found)
        case DetachBegin(client) => if Runs(f, client) then Keeps(h, WorkerOf(f, client), client) else h
        case _ => h
  }

  ghost function DriftAfter(actions: seq<Action>): Drift {
    if actions == [] then (w: nat, k: nat) => Since(None, [])
    else NextDrift(Exec(actions[..|actions| - 1]), actions[|actions| - 1], DriftAfter(actions[..|actions| - 1]))
  }

  /** The table the calls made elsewhere turn a kept one into. */
  ghost function Drifted(kept: Table, s: Since): Table {
    Log.Run(Log.Plain(), if s.base.Some? then s.base.value else kept, s.ops)
  }

  // ---------------------------------------------------------------- the invariant

  ghost predicate IsCurrent(children: map<nat, D.Child>, running: map<nat, Table>, dumped: map<nat, Table>, k: nat, t: Table) {
    k in children ==>
      match children[k].worker
      case Some(w) => w in running && running[w] == t
      case None => k in dumped && dumped[k] == t
  }

  ghost predicate Housed(children: map<nat, D.Child>, running: map<nat, Table>, dumped: map<nat, Table>) {
    forall k :: k in children ==> if children[k].worker.Some? then children[k].worker.value in running else k in dumped
  }

  /** Every kept table, with the calls made elsewhere since, is the client's present one; and a worker
      keeps no table of the client it runs. */
  ghost predicate KeptOk(children: map<nat, D.Child>, running: map<nat, Table>, dumped: map<nat, Table>, kept: map<(nat, nat), Table>, h: Drift) {
    forall w, k :: (w, k) in kept ==>
      && IsCurrent(children, running, dumped, k, Drifted(kept[(w, k)], h(w, k)))
      && (k in children ==> children[k].worker != Some(w))
  }

  ghost predicate Inv(f: Site, h: Drift) {
    f.Site? ==>
      && f.d.State? && D.Inv(f.d)
      && Housed(f.d.children, f.running, f.dumped)
      && KeptOk(f.d.children, f.running, f.dumped, f.kept, h)
  }

  ghost predicate Sane(f: Site, x: Action) {
    f.Site? && f.d.State? && x.Request? ==> D.Sane(f.d, x.a)
  }

  /** The standby's kept table, if it would be used, is still the client's. */
  ghost predicate NotStale(f: Site, h: Drift, client: nat) {
    UsesKept(f, client) ==>
      var w := f.d.standby.value.worker;
      Drifted(f.kept[(w, client)], h(w, client)) == f.kept[(w, client)]
  }

  // ---------------------------------------------------------------- every step keeps it

  lemma RunNext(t: Table, ops: seq<Log.Op>, op: Log.Op)
    ensures Log.Run(Log.Plain(), t, ops + [op]) == Log.Step(Log.Plain(), Log.Run(Log.Plain(), t, ops), op)
  {
    hide Log.Step;
    assert (ops + [op])[..|ops|] == ops;
  }

  lemma NothingDrifted(t: Table)
    ensures Drifted(t, Since(None, [])) == t && Drifted(t, Since(Some(t), [])) == t
  {
  }

  /** A child begins anew on a worker with nothing kept. */
  lemma SpawnKept(d: D.State, running: map<nat, Table>, dumped: map<nat, Table>, kept: map<(nat, nat), Table>, h: Drift, client: nat, child: D.Child,
                  spawned: nat, t: Table)
    requires d.State? && KeptOk(d.children, running, dumped, kept, h) && !D.Owned(d, spawned) && client !in d.children && child.worker == Some(spawned)
    ensures KeptOk(d.children[client := child], running[spawned := t], dumped, Without(kept, spawned), Anew(h, client, t))
  {
    hide Log.Run;
    var kept' := Without(kept, spawned);
    forall w, k | (w, k) in kept'
      ensures IsCurrent(d.children[client := child], running[spawned := t], dumped, k, Drifted(kept'[(w, k)], Anew(h, client, t)(w, k)))
      ensures k in d.children[client := child] ==> d.children[client := child][k].worker != Some(w)
    {
      assert (w, k) in kept && w != spawned;
      if k == client {
        AnewDrift(kept[(w, k)], t);
      } else if k in d.children {
        assert d.children[k].worker != Some(spawned);
      }
    }
  }

  lemma AnewDrift(kept: Table, t: Table)
    ensures Drifted(kept, Since(Some(t), [])) == t
  {
  }

  /** A running client begins anew on its worker. */
  lemma RestartKept(d: D.State, running: map<nat, Table>, dumped: map<nat, Table>, kept: map<(nat, nat), Table>, h: Drift, client: nat, child: D.Child,
                    v: nat, t: Table)
    requires d.State? && KeptOk(d.children, running, dumped, kept, h) && D.OwnedOnce(d.children, d.standby, d.detaching)
    requires client in d.children && d.children[client].worker == child.worker == Some(v)
    ensures KeptOk(d.children[client := child], running[v := t], dumped, kept, Anew(h, client, t))
  {
    hide Log.Run;
    forall w, k | (w, k) in kept
      ensures IsCurrent(d.children[client := child], running[v := t], dumped, k, Drifted(kept[(w, k)], Anew(h, client, t)(w, k)))
      ensures k in d.children[client := child] ==> d.children[client := child][k].worker != Some(w)
    {
      if k == client {
        AnewDrift(kept[(w, k)], t);
      } else if k in d.children {
        assert d.children[k].worker != Some(v);
      }
    }
  }

  lemma CallKept(d: D.State, running: map<nat, Table>, dumped: map<nat, Table>, kept: map<(nat, nat), Table>, h: Drift, client: nat, v: nat, op: Log.Op)
    requires d.State? && KeptOk(d.children, running, dumped, kept, h) && D.OwnedOnce(d.children, d.standby, d.detaching)
    requires client in d.children && d.children[client].worker == Some(v) && v in running
    ensures KeptOk(d.children, running[v := Log.Step(Log.Plain(), running[v], op)], dumped, kept, Calls(h, v, client, op))
  {
    hide Log.Run, Log.Step;
    var t := Log.Step(Log.Plain(), running[v], op);
    forall w, k | (w, k) in kept
      ensures IsCurrent(d.children, running[v := t], dumped, k, Drifted(kept[(w, k)], Calls(h, v, client, op)(w, k)))
    {
      if k == client {
        assert w != v;
        var s := h(w, k);
        RunNext(if s.base.Some? then s.base.value else kept[(w, k)], s.ops, op);
      } else if k in d.children {
        assert d.children[k].worker != Some(v);
      }
    }
  }

  /** A dump, on a worker that keeps the table if it has a cache. */
  lemma DetachKept(d: D.State, running: map<nat, Table>, dumped: map<nat, Table>, kept: map<(nat, nat), Table>, h: Drift, client: nat, v: nat, keeps: bool)
    requires d.State? && KeptOk(d.children, running, dumped, kept, h)
    requires client in d.children && d.children[client].worker == Some(v) && v in running
    ensures KeptOk(d.children[client := d.children[client].(worker := None)], running, dumped[client := running[v]],
                   if keeps then kept[(v, client) := running[v]] else kept, Keeps(h, v, client))
  {
    hide Log.Run;
    var kept' := if keeps then kept[(v, client) := running[v]] else kept;
    var children' := d.children[client := d.children[client].(worker := None)];
    forall w, k | (w, k) in kept'
      ensures IsCurrent(children', running, dumped[client := running[v]], k, Drifted(kept'[(w, k)], Keeps(h, v, client)(w, k)))
      ensures k in children' ==> children'[k].worker != Some(w)
    {
      if w == v && k == client {
        assert keeps;
        NothingDrifted(running[v]);
      } else {
        assert (w, k) in kept && kept'[(w, k)] == kept[(w, k)];
      }
    }
  }

  /** An attach that goes on with the dumped table, on a worker nobody runs on. */
  lemma AttachKept(d: D.State, running: map<nat, Table>, dumped: map<nat, Table>, kept: map<(nat, nat), Table>, h: Drift, client: nat, v: nat,
                   kept': map<(nat, nat), Table>)
    requires d.State? && KeptOk(d.children, running, dumped, kept, h)
    requires client in d.children && d.children[client].worker.None? && client in dumped
    requires forall k :: k in d.children ==> d.children[k].worker != Some(v)
    requires (v, client) !in kept' && forall p :: p in kept' ==> p in kept && kept'[p] == kept[p]
    ensures KeptOk(d.children[client := d.children[client].(worker := Some(v))], running[v := dumped[client]], dumped, kept', h)
  {
    hide Log.Run;
    forall w, k | (w, k) in kept'
      ensures IsCurrent(d.children[client := d.children[client].(worker := Some(v))], running[v := dumped[client]], dumped, k, Drifted(kept'[(w, k)], h(w, k)))
    {
      assert (w, k) in kept;
    }
  }

  lemma FewerKept(children: map<nat, D.Child>, running: map<nat, Table>, dumped: map<nat, Table>, kept: map<(nat, nat), Table>, h: Drift,
                  children': map<nat, D.Child>, kept': map<(nat, nat), Table>)
    requires KeptOk(children, running, dumped, kept, h)
    requires forall k :: k in children' ==> k in children && children'[k].worker == children[k].worker
    requires forall p :: p in kept' ==> p in kept && kept'[p] == kept[p]
    ensures KeptOk(children', running, dumped, kept', h)
  {
    hide Log.Run;
    forall w, k | (w, k) in kept' ensures IsCurrent(children', running, dumped, k, Drifted(kept'[(w, k)], h(w, k))) {
      assert (w, k) in kept;
    }
  }

  // ---------------------------------------------------------------- requests, one by one

  lemma HousedUpdate(children: map<nat, D.Child>, running: map<nat, Table>, dumped: map<nat, Table>, k: nat, child: D.Child, w: nat, t: Table)
    requires Housed(children, running, dumped) && (if child.worker.Some? then child.worker.value == w || child.worker.value in running else k in dumped)
    ensures Housed(children[k := child], running[w := t], dumped)
  {
  }

  lemma HousedAlike(children: map<nat, D.Child>, children': map<nat, D.Child>, running: map<nat, Table>, dumped: map<nat, Table>)
    requires Housed(children, running, dumped)
    requires forall k :: k in children' ==> k in children && children'[k].worker == children[k].worker
    ensures Housed(children', running, dumped)
  {
  }

  lemma NewThreadKeeps(f: Site, client: nat, job: nat, devices: nat, spawned: nat, h: Drift)
    requires f.Site? && Inv(f, h) && D.Sane(f.d, D.NewThread(client, job, devices, spawned))
    requires D.Step(f.d, D.NewThread(client, job, devices, spawned)).State?
    ensures var a := D.NewThread(client, job, devices, spawned);
            Inv(Effect(f, a, D.Step(f.d, a)), if client in f.d.children then h else Anew(h, client, NoTable()))
  {
    hide D.IdsDistinct, D.OwnedOnce, D.Inv, D.Owned, KeptOk, Housed, Without, NoTable, Anew;
    var a := D.NewThread(client, job, devices, spawned);
    D.StepKeeps(f.d, a);
    var d := D.Step(f.d, a);
    if client in f.d.children {
      FewerKept(f.d.children, f.running, f.dumped, f.kept, h, d.children, f.kept);
      HousedAlike(f.d.children, d.children, f.running, f.dumped);
    } else {
      assert d.children == f.d.children[client := d.children[client]];
      SpawnKept(f.d, f.running, f.dumped, f.kept, h, client, d.children[client], spawned, NoTable());
      HousedUpdate(f.d.children, f.running, f.dumped, client, d.children[client], spawned, NoTable());
    }
  }

  lemma CallKeeps(f: Site, client: nat, op: Log.Op, h: Drift)
    requires f.Site? && Inv(f, h) && Runs(f, client)
    ensures Inv(Step(f, Call(client, op)), Calls(h, WorkerOf(f, client), client, op))
  {
    hide D.IdsDistinct, D.OwnedOnce, KeptOk, Housed, Log.Step, Calls;
    var w := WorkerOf(f, client);
    var t := Log.Step(Log.Plain(), f.running[w], op);
    CallKept(f.d, f.running, f.dumped, f.kept, h, client, w, op);
    assert f.d.children[client := f.d.children[client]] == f.d.children;
    HousedUpdate(f.d.children, f.running, f.dumped, client, f.d.children[client], w, t);
  }

  lemma DetachBeginKeeps(f: Site, client: nat, h: Drift)
    requires f.Site? && Inv(f, h) && D.Step(f.d, D.DetachBegin(client)).State?
    ensures Runs(f, client)
    ensures Inv(Effect(f, D.DetachBegin(client), D.Step(f.d, D.DetachBegin(client))), Keeps(h, WorkerOf(f, client), client))
  {
    hide D.IdsDistinct, D.OwnedOnce, D.Inv, KeptOk, Keeps;
    D.StepKeeps(f.d, D.DetachBegin(client));
    var w := f.d.children[client].worker.value;
    DetachKept(f.d, f.running, f.dumped, f.kept, h, client, w, w in f.d.caches);
  }

  lemma QuietKeeps(f: Site, a: D.Action, h: Drift)
    requires f.Site? && Inv(f, h) && (a.DetachEnd? || a.Reap? || a.PrepareStandby?) && D.Sane(f.d, a) && D.Step(f.d, a).State?
    ensures Inv(Effect(f, a, D.Step(f.d, a)), h)
  {
    hide D.IdsDistinct, D.OwnedOnce, D.Inv, D.Owned, KeptOk, Housed, D.MayStandBy;
    D.StepKeeps(f.d, a);
    var g := Effect(f, a, D.Step(f.d, a));
    FewerKept(f.d.children, f.running, f.dumped, f.kept, h, g.d.children, g.kept);
    HousedAlike(f.d.children, g.d.children, f.running, f.dumped);
  }

  /** The dumped table of a parked client is the present one, so a kept table is it exactly if nothing
      that happened elsewhere shows. */
  lemma KeptIsDumped(f: Site, client: nat, h: Drift)
    requires f.Site? && Inv(f, h) && client in f.d.children && f.d.children[client].worker.None?
    ensures client in f.dumped && (Resumed(f, client) == f.dumped[client] <==> NotStale(f, h, client))
  {
    hide D.Inv, Drifted;
    if UsesKept(f, client) {
      assert IsCurrent(f.d.children, f.running, f.dumped, client, Drifted(f.kept[(f.d.standby.value.worker, client)], h(f.d.standby.value.worker, client)));
    }
  }

  lemma AttachKeeps(f: Site, client: nat, spawned: nat, h: Drift)
    requires f.Site? && Inv(f, h) && D.Sane(f.d, D.Attach(client, spawned)) && D.Step(f.d, D.Attach(client, spawned)).State?
    requires NotStale(f, h, client)
    ensures Inv(Effect(f, D.Attach(client, spawned), D.Step(f.d, D.Attach(client, spawned))), h)
  {
    hide D.IdsDistinct, D.Inv, KeptOk, Housed, NotStale, UsesKept, Replays, D.Owned, D.OwnedOnce, Resumed;
    D.StepKeeps(f.d, D.Attach(client, spawned));
    KeptIsDumped(f, client, h);
    var w := if D.IsWarm(f.d, client) then f.d.standby.value.worker else spawned;
    var kept' := if D.IsWarm(f.d, client) then f.kept - {(w, client)} else Without(f.kept, w);
    AttachAlone(f, client, spawned, h);
    AttachKept(f.d, f.running, f.dumped, f.kept, h, client, w, kept');
    HousedUpdate(f.d.children, f.running, f.dumped, client, f.d.children[client].(worker := Some(w)), w, f.dumped[client]);
  }

  lemma AttachAlone(f: Site, client: nat, spawned: nat, h: Drift)
    requires f.Site? && Inv(f, h) && D.Sane(f.d, D.Attach(client, spawned))
    ensures var w := if D.IsWarm(f.d, client) then f.d.standby.value.worker else spawned;
            forall k :: k in f.d.children ==> f.d.children[k].worker != Some(w)
  {
    hide D.IdsDistinct, KeptOk, Housed, D.OwnedOnce, D.Owned;
    if D.IsWarm(f.d, client) { D.StandbyAlone(f.d); } else { D.NotRunning(f.d, spawned); }
  }

  // ---------------------------------------------------------------- restoring a directory

  lemma RestoreOneKeeps(f: Site, ids: map<nat, seq<int>>, todo: set<nat>, client: nat, min: int, max: int, job: nat, devices: nat,
                        workers: map<nat, nat>, t: Table, h: Drift)
    requires f.Site? && Inv(f, h)
    requires f.d.nextId == max + 1 && client in todo && client in ids && client in workers
    requires D.DistinctIds(ids, min, max) && D.Unclaimed(f.d.children, ids, todo) && D.FreshWorkers(f.d, workers, todo)
    ensures var g := RestoreOne(f, client, ids[client], job, devices, workers[client], t);
            && Inv(g, Anew(h, client, t))
            && (g.Site? ==> g.d.State? && g.d.nextId == max + 1 && D.Unclaimed(g.d.children, ids, todo - {client})
                            && D.FreshWorkers(g.d, workers, todo - {client}))
  {
    assert !D.Owned(f.d, workers[client]);
    hide D.IdsDistinct, D.OwnedOnce, D.Owned, D.Unclaimed, D.FreshWorkers, D.DistinctIds, KeptOk, Housed, Without, Replays, Anew;
    D.RestoreOneKeeps(f.d, ids, todo, client, min, max, job, devices, workers);
    var g := RestoreOne(f, client, ids[client], job, devices, workers[client], t);
    if g.Site? {
      var child := g.d.children[client];
      var w := child.worker.value;
      if client in f.d.children {
        RestartKept(f.d, f.running, f.dumped, f.kept, h, client, child, w, t);
      } else {
        assert g.d.children == f.d.children[client := child];
        SpawnKept(f.d, f.running, f.dumped, f.kept, h, client, child, w, t);
      }
      HousedUpdate(f.d.children, f.running, f.dumped, client, child, w, t);
    }
  }

  lemma {:induction false} RestoreManyKeeps(f: Site, order: seq<nat>, ids: map<nat, seq<int>>, todo: set<nat>, min: int, max: int, job: nat, devices: nat,
                                            workers: map<nat, nat>, found: map<nat, Table>, h: Drift)
    requires Inv(f, h)
    requires f.Site? ==> f.d.State? && f.d.nextId == max + 1 && D.Unclaimed(f.d.children, ids, todo) && D.FreshWorkers(f.d, workers, todo)
    requires D.EachOnce(order, todo) && todo <= ids.Keys && D.DistinctIds(ids, min, max)
    ensures Inv(RestoreMany(f, order, ids, job, devices, workers, found), AnewMany(h, order, found))
    decreases |order|
  {
    hide D.Inv, D.Owned, D.Unclaimed, D.DistinctIds, RestoreOne, KeptOk, Housed, Anew;
    if f.Site? && order != [] {
      var client := order[0];
      if client in found {
        RestoreOneKeeps(f, ids, todo, client, min, max, job, devices, workers, found[client], h);
        D.EachOnceRest(order, todo);
        RestoreManyKeeps(RestoreOne(f, client, ids[client], job, devices, workers[client], found[client]), order[1..], ids, todo - {client},
                         min, max, job, devices, workers, found, Anew(h, client, found[client]));
      }
    }
  }

  lemma RestoreKeeps(f: Site, a: D.Action, found: map<nat, Table>, h: Drift)
    requires f.Site? && f.d.State? && Inv(f, h) && Sane(f, Request(a, found)) && a.RestoreJob?
    ensures Inv(Step(f, Request(a, found)), AnewMany(h, a.order, found))
  {
    hide D.IdsDistinct, D.OwnedOnce, D.Unclaimed, D.FreshWorkers, D.DistinctIds, D.EachOnce, RestoreMany, KeptOk, Housed;
    if f.d.nextId <= a.min <= a.max {
      D.NothingClaimed(f.d, a.ids, a.min, a.max);
      D.IdsBelow(f.d.children, f.d.nextId, a.max + 1);
      D.FreshAnyId(f.d, a.workers, a.ids.Keys, a.max + 1);
      RestoreManyKeeps(f.(d := f.d.(nextId := a.max + 1)), a.order, a.ids, a.ids.Keys, a.min, a.max, a.job, a.devices, a.workers, found, h);
    }
  }

  // ---------------------------------------------------------------- whole runs

  lemma InvState(f: Site, h: Drift)
    requires f.Site? && Inv(f, h)
    ensures f.d.State?
  {
  }

  lemma HaltedInv(h: Drift)
    ensures Inv(Halted, h)
  {
  }

  lemma AskKeeps(f: Site, a: D.Action, found: map<nat, Table>, h: Drift)
    requires f.Site? && f.d.State? && Inv(f, h) && D.Sane(f.d, a) && !a.RestoreJob? && (a.Attach? ==> NotStale(f, h, a.client))
    ensures Inv(Step(f, Request(a, found)), NextDrift(f, Request(a, found), h))
  {
    hide Inv, Effect, D.Step, D.Sane, Anew, Keeps, NotStale;
    if D.Step(f.d, a).State? {
      match a
      case NewThread(client, job, devices, spawned) => NewThreadKeeps(f, client, job, devices, spawned, h);
      case DetachBegin(client) => DetachBeginKeeps(f, client, h);
      case Attach(client, spawned) => AttachKeeps(f, client, spawned, h);
      case DetachEnd(_) => QuietKeeps(f, a, h);
      case PrepareStandby(_, _) => QuietKeeps(f, a, h);
      case Reap(_) => QuietKeeps(f, a, h);
    } else {
      HaltedInv(NextDrift(f, Request(a, found), h));
    }
  }

  lemma StepKeeps(f: Site, x: Action, h: Drift)
    requires Inv(f, h) && Sane(f, x) && (x.Request? && x.a.Attach? ==> NotStale(f, h, x.a.client))
    ensures Inv(Step(f, x), NextDrift(f, x, h))
  {
    hide Inv, D.Sane, NotStale, Calls, AnewMany, RestoreMany, D.Step;
    if f.Site? {
      InvState(f, h);
      match x
      case Call(client, op) => if Runs(f, client) { CallKeeps(f, client, op, h); }
      case Request(a, found) => if a.RestoreJob? { RestoreKeeps(f, a, found, h); } else { AskKeeps(f, a, found, h); }
    }
  }

  ghost predicate AllSane(actions: seq<Action>) {
    actions != [] ==> AllSane(actions[..|actions| - 1]) && Sane(Exec(actions[..|actions| - 1]), actions[|actions| - 1])
  }

  /** No attach of the run went on with a table that was no longer the client's. */
  ghost predicate NeverStale(actions: seq<Action>) {
    actions != [] ==>
      var front, last := actions[..|actions| - 1], actions[|actions| - 1];
      && NeverStale(front)
      && (last.Request? && last.a.Attach? ==> NotStale(Exec(front), DriftAfter(front), last.a.client))
  }

  lemma BeginInv(h: Drift)
    ensures Inv(Begin(), h)
  {
  }

  lemma {:induction false} RunKeeps(actions: seq<Action>)
    requires AllSane(actions) && NeverStale(actions)
    ensures Inv(Exec(actions), DriftAfter(actions))
  {
    hide Inv, Step, NextDrift, Sane, NotStale;
    if actions == [] {
      BeginInv(DriftAfter(actions));
    } else {
      var front := actions[..|actions| - 1];
      RunKeeps(front);
      StepKeeps(Exec(front), actions[|actions| - 1], DriftAfter(front));
    }
  }

  /** Main result. Over all runs of the daemon in which no attach before went wrong, a client attached
      goes on with the table that was dumped exactly if the standby keeps none of it that holds
      handles, or the calls made on other workers since it was kept leave that table as it was. */
  lemma AttachFindsHandles(actions: seq<Action>, client: nat, spawned: nat)
    requires AllSane(actions) && NeverStale(actions)
    requires var f := Exec(actions); f.Site? && f.d.State? && D.Sane(f.d, D.Attach(client, spawned)) && D.Step(f.d, D.Attach(client, spawned)).State?
    requires Step(Exec(actions), Request(D.Attach(client, spawned), map[])).Site?
    ensures var f, g := Exec(actions), Step(Exec(actions), Request(D.Attach(client, spawned), map[]));
            && client in f.dumped && Runs(g, client)
            && (g.running[WorkerOf(g, client)] == f.dumped[client] <==> NotStale(f, DriftAfter(actions), client))
  {
    hide Exec, DriftAfter, NotStale, Inv, AllSane, NeverStale, Replays;
    RunKeeps(actions);
    KeptIsDumped(Exec(actions), client, DriftAfter(actions));
  }

  /** In particular if the client made no call and did not begin anew elsewhere. */
  lemma UndisturbedIsNotStale(f: Site, h: Drift, client: nat)
    requires UsesKept(f, client) ==> h(f.d.standby.value.worker, client) == Since(None, [])
    ensures NotStale(f, h, client)
  {
    if UsesKept(f, client) { NothingDrifted(f.kept[(f.d.standby.value.worker, client)]); }
  }

  // ---------------------------------------------------------------- a table left behind

  ghost predicate Reached(actions: seq<Action>, f: Site) { AllSane(actions) && Exec(actions) == f }

  lemma Then(actions: seq<Action>, f: Site, x: Action, g: Site) returns (r: seq<Action>)
    requires Reached(actions, f) && Sane(f, x) && Step(f, x) == g
    ensures Reached(r, g)
  {
    hide Step, Sane;
    r := actions + [x];
    assert r[..|actions|] == actions;
  }

  ghost function Ask(a: D.Action): Action { Request(a, map[]) }

  ghost function Made(n: nat): Log.Entry { Log.Entry(true, n, None, {}, []) }

  ghost function First(): Table { Log.State([Made(1)], {1}, map[1 := ()]) }

  ghost function Second(): Table { Log.State([Made(1), Made(2)], {1, 2}, map[1 := (), 2 := ()]) }

  lemma MakesFirst()
    ensures Log.Step(Log.Plain(), NoTable(), Log.Record(Made(1))) == First() && First().State? && Replays(First()) && Replays(NoTable())
  {
    assert Log.Created(First().log) == {1};
    assert Log.Created(NoTable().log) == {};
  }

  lemma MakesSecond()
    ensures Log.Step(Log.Plain(), First(), Log.Record(Made(2))) == Second() && Second() != First() && Second().State?
  {
    hide Filter, Log.SameKind, Log.Recorded;
    FilterAll([Made(1)], Log.NotOf(2));
    assert [Made(1)] + [Made(2)] == [Made(1), Made(2)];
    assert {1} + {2} == {1, 2};
    assert map[1 := ()][2 := ()] == map[1 := (), 2 := ()];
    assert Second().live != First().live by { assert 2 in Second().live; }
  }

  /** A client is parked by a worker; one with a cache keeps the table and is the standby again. */
  lemma Parks(actions: seq<Action>, f: Site, client: nat, w: nat) returns (r: seq<Action>)
    requires Reached(actions, f) && f.Site? && f.d.State? && client in f.d.children && f.d.children[client].worker == Some(w)
    requires |f.d.children[client].ids| == 1 && w !in f.d.detaching && w in f.running && (w in f.d.caches ==> f.d.standby.None?)
    ensures var cache := if w in f.d.caches then f.d.caches[w] + {client} else {};
            Reached(r, Site(f.d.(children := f.d.children[client := f.d.children[client].(worker := None)],
                                 standby := if w in f.d.caches then Some(D.Standby(w, cache)) else f.d.standby,
                                 caches := if w in f.d.caches then f.d.caches[w := cache] else f.d.caches),
                            f.running, if w in f.d.caches then f.kept[(w, client) := f.running[w]] else f.kept,
                            f.dumped[client := f.running[w]]))
  {
    hide Reached;
    var begin, end := D.DetachBegin(client), D.DetachEnd(w);
    var d1 := f.d.(children := f.d.children[client := f.d.children[client].(worker := None)], detaching := f.d.detaching[w := client]);
    var f1 := Site(d1, f.running, if w in f.d.caches then f.kept[(w, client) := f.running[w]] else f.kept, f.dumped[client := f.running[w]]);
    assert D.Step(f.d, begin) == d1;
    r := Then(actions, f, Ask(begin), f1);
    assert d1.detaching - {w} == f.d.detaching;
    r := Then(r, f1, Ask(end), f1.(d := D.Step(d1, end)));
  }

  /** A parked client goes to the standby, or to a worker of its own. */
  lemma Attaches(actions: seq<Action>, f: Site, client: nat, spawned: nat) returns (r: seq<Action>)
    requires Reached(actions, f) && f.Site? && f.d.State? && client in f.d.children && f.d.children[client].worker.None?
    requires |f.d.children[client].ids| == 1 && client in f.dumped && Replays(f.dumped[client]) && !D.Owned(f.d, spawned)
    requires D.IsWarm(f.d, client) ==> f.d.standby.value.worker in f.d.caches
    ensures var warm := D.IsWarm(f.d, client); var w := if warm then f.d.standby.value.worker else spawned;
            Reached(r, Site(f.d.(children := f.d.children[client := f.d.children[client].(worker := Some(w))],
                                 standby := if warm then None else f.d.standby,
                                 caches := if warm then f.d.caches[w := f.d.caches[w] - {client}] else f.d.caches - {w}),
                            f.running[w := Resumed(f, client)], if warm then f.kept - {(w, client)} else Without(f.kept, w), f.dumped))
  {
    hide Reached, Replays, Without, D.Owned;
    var a := D.Attach(client, spawned);
    r := Then(actions, f, Ask(a), Step(f, Ask(a)));
  }

  ghost function Site2(w1: Option<nat>, w2: Option<nat>, standby: Option<D.Standby>, caches: map<nat, set<nat>>, running: map<nat, Table>,
                       kept: map<(nat, nat), Table>, dumped: map<nat, Table>): Site {
    Site(D.State(2, D.Kids(w1, w2), standby, map[], caches), running, kept, dumped)
  }

  lemma TwoStart() returns (r: seq<Action>)
    ensures Reached(r, Site2(Some(10), Some(20), None, map[], map[10 := NoTable(), 20 := NoTable()], map[], map[]))
  {
    var a, b := D.NewThread(1, 0, 0, 10), D.NewThread(2, 0, 0, 20);
    var d1 := D.State(1, map[1 := D.Child(0, 0, Some(10), [0])], None, map[], map[]);
    var f1 := Site(d1, map[10 := NoTable()], map[], map[]);
    assert [] + [0] == [0] && D.INIT.caches - {10} == map[];
    assert D.Step(D.INIT, a).children == d1.children;
    assert D.Step(D.INIT, a) == d1 && Without(map[], 10) == map[];
    r := Then([], Begin(), Ask(a), f1);
    hide Reached;
    assert !D.Owned(d1, 20);
    assert [] + [1] == [1] && d1.caches - {20} == map[];
    var f2 := Site2(Some(10), Some(20), None, map[], map[10 := NoTable(), 20 := NoTable()], map[], map[]);
    assert D.Step(d1, b).children == f2.d.children;
    assert D.Step(d1, b) == f2.d && Without(map[], 20) == map[];
    r := Then(r, f1, Ask(b), f2);
  }

  lemma BothParked() returns (r: seq<Action>)
    ensures Reached(r, Site2(None, None, Some(D.Standby(30, {1, 2})), map[30 := {1, 2}],
                             map[10 := NoTable(), 20 := NoTable()], map[], map[1 := NoTable(), 2 := NoTable()]))
  {
    hide Reached, NoTable;
    r := TwoStart();
    var running := map[10 := NoTable(), 20 := NoTable()];
    r := Parks(r, Site2(Some(10), Some(20), None, map[], running, map[], map[]), 1, 10);
    assert D.Kids(Some(10), Some(20))[1 := D.Child(0, 0, None, [0])] == D.Kids(None, Some(20));
    r := Parks(r, Site2(None, Some(20), None, map[], running, map[], map[1 := NoTable()]), 2, 20);
    assert D.Kids(None, Some(20))[2 := D.Child(0, 0, None, [1])] == D.Kids(None, None);
    var f := Site2(None, None, None, map[], running, map[], map[1 := NoTable(), 2 := NoTable()]);
    var a := D.PrepareStandby([1, 2], 30);
    assert !D.Owned(f.d, 30) && Without(map[], 30) == map[];
    assert (set k: nat | k in [1, 2]) == {1, 2};
    assert D.Step(f.d, a) == f.d.(standby := Some(D.Standby(30, {1, 2})), caches := map[30 := {1, 2}]);
    r := Then(r, f, Ask(a), f.(d := D.Step(f.d, a)));
  }

  /** The second client runs on the standby, makes a handle there and is parked: the standby keeps its
      table. */
  lemma SecondIsKept() returns (r: seq<Action>)
    ensures Reached(r, Site2(None, None, Some(D.Standby(30, {1, 2})), map[30 := {1, 2}],
                             map[10 := NoTable(), 20 := NoTable(), 30 := First()], map[(30, 2) := First()], map[1 := NoTable(), 2 := First()]))
  {
    MakesFirst();
    hide Reached, NoTable, First, Replays;
    r := BothParked();
    var running := map[10 := NoTable(), 20 := NoTable()];
    var dumped := map[1 := NoTable(), 2 := NoTable()];
    var f := Site2(None, None, Some(D.Standby(30, {1, 2})), map[30 := {1, 2}], running, map[], dumped);
    assert !D.Owned(f.d, 40);
    r := Attaches(r, f, 2, 40);
    assert {1, 2} - {2} == {1} && D.Kids(None, None)[2 := D.Child(0, 0, Some(30), [1])] == D.Kids(None, Some(30));
    var g := Site2(None, Some(30), None, map[30 := {1}], running[30 := NoTable()], map[], dumped);
    assert map[30 := {1, 2}][30 := {1}] == map[30 := {1}] && (map[] - {(30, 2)}) == g.kept;
    var x := Call(2, Log.Record(Made(1)));
    assert running[30 := NoTable()][30 := First()] == map[10 := NoTable(), 20 := NoTable(), 30 := First()];
    r := Then(r, g, x, g.(running := map[10 := NoTable(), 20 := NoTable(), 30 := First()]));
    r := Parks(r, g.(running := map[10 := NoTable(), 20 := NoTable(), 30 := First()]), 2, 30);
    assert {1} + {2} == {1, 2} && D.Kids(None, Some(30))[2 := D.Child(0, 0, None, [1])] == D.Kids(None, None);
    assert map[30 := {1}][30 := {1, 2}] == map[30 := {1, 2}];
    assert dumped[2 := First()] == map[1 := NoTable(), 2 := First()];
  }

  /** It happens: the standby goes to the first client; the second makes another handle on a worker of
      its own; both are parked; and the second, attached to the standby again, goes on with the table
      kept before, not with the one that was dumped. */
  lemma TableIsLeftBehind() returns (actions: seq<Action>)
    ensures AllSane(actions)
    ensures var f, g := Exec(actions), Step(Exec(actions), Ask(D.Attach(2, 50)));
            && f.Site? && f.d.State? && D.Sane(f.d, D.Attach(2, 50)) && 2 in f.dumped
            && Runs(g, 2) && g.running[WorkerOf(g, 2)] != f.dumped[2]
  {
    MakesFirst();
    MakesSecond();
    hide Reached, NoTable, Replays, Log.Step;
    var r := SecondIsKept();
    var running := map[10 := NoTable(), 20 := NoTable(), 30 := First()];
    var kept := map[(30, 2) := First()];
    var dumped := map[1 := NoTable(), 2 := First()];
    var f := Site2(None, None, Some(D.Standby(30, {1, 2})), map[30 := {1, 2}], running, kept, dumped);
    assert !D.Owned(f.d, 40);
    r := Attaches(r, f, 1, 40);
    assert {1, 2} - {1} == {2} && D.Kids(None, None)[1 := D.Child(0, 0, Some(30), [0])] == D.Kids(Some(30), None);
    assert map[30 := {1, 2}][30 := {2}] == map[30 := {2}] && kept - {(30, 1)} == kept;
    var g := Site2(Some(30), None, None, map[30 := {2}], running[30 := NoTable()], kept, dumped);
    r := SecondElsewhere(r, g);
    var e := EndState(g);
    ReachedMeans(r, e);
    actions := r;
    StaleAtEnd(e);
  }

  ghost function EndState(g: Site): Site
    requires g.Site?
  {
    Site2(None, None, Some(D.Standby(30, {1, 2})), map[30 := {1, 2}], g.running[40 := Second()], map[(30, 2) := First()][(30, 1) := NoTable()],
          map[1 := NoTable(), 2 := Second()])
  }

  lemma ReachedMeans(actions: seq<Action>, f: Site)
    requires Reached(actions, f)
    ensures AllSane(actions) && Exec(actions) == f
  {
  }

  lemma SecondRuns(actions: seq<Action>, g: Site) returns (r: seq<Action>)
    requires g.Site? && g == Site2(Some(30), None, None, map[30 := {2}], g.running, map[(30, 2) := First()], map[1 := NoTable(), 2 := First()])
    requires Reached(actions, g)
    ensures Reached(r, Site2(Some(30), Some(40), None, map[30 := {2}], g.running[40 := Second()], g.kept, g.dumped))
  {
    MakesFirst();
    MakesSecond();
    hide Reached, NoTable, First, Second, Replays, Log.Step;
    assert !D.Owned(g.d, 40);
    r := Attaches(actions, g, 2, 40);
    assert map[30 := {2}] - {40} == map[30 := {2}] && Without(g.kept, 40) == g.kept;
    assert D.Kids(Some(30), None)[2 := D.Child(0, 0, Some(40), [1])] == D.Kids(Some(30), Some(40));
    var a := Site2(Some(30), Some(40), None, map[30 := {2}], g.running[40 := First()], g.kept, g.dumped);
    assert g.running[40 := First()][40 := Second()] == g.running[40 := Second()];
    r := Then(r, a, Call(2, Log.Record(Made(2))), a.(running := g.running[40 := Second()]));
  }

  lemma SecondElsewhere(actions: seq<Action>, g: Site) returns (r: seq<Action>)
    requires g.Site? && g == Site2(Some(30), None, None, map[30 := {2}], g.running, map[(30, 2) := First()], map[1 := NoTable(), 2 := First()])
    requires Reached(actions, g) && 30 in g.running && g.running[30] == NoTable()
    ensures Reached(r, EndState(g))
  {
    hide Reached, NoTable, First, Second;
    r := SecondRuns(actions, g);
    var b := Site2(Some(30), Some(40), None, map[30 := {2}], g.running[40 := Second()], g.kept, g.dumped);
    r := Parks(r, b, 2, 40);
    assert D.Kids(Some(30), Some(40))[2 := D.Child(0, 0, None, [1])] == D.Kids(Some(30), None);
    assert g.dumped[2 := Second()] == map[1 := NoTable(), 2 := Second()];
    var c := Site2(Some(30), None, None, map[30 := {2}], b.running, g.kept, map[1 := NoTable(), 2 := Second()]);
    r := Parks(r, c, 1, 30);
    assert {2} + {1} == {1, 2} && D.Kids(Some(30), None)[1 := D.Child(0, 0, None, [0])] == D.Kids(None, None);
    assert map[30 := {2}][30 := {1, 2}] == map[30 := {1, 2}];
    assert c.dumped[1 := NoTable()] == c.dumped;
  }

  lemma StaleAtEnd(e: Site)
    requires e.Site? && e == Site2(None, None, Some(D.Standby(30, {1, 2})), map[30 := {1, 2}], e.running, map[(30, 2) := First()][(30, 1) := NoTable()],
                                   map[1 := NoTable(), 2 := Second()])
    ensures var g := Step(e, Ask(D.Attach(2, 50)));
            D.Sane(e.d, D.Attach(2, 50)) && 2 in e.dumped && Runs(g, 2) && g.running[WorkerOf(g, 2)] != e.dumped[2]
  {
    MakesSecond();
    assert UsesKept(e, 2) by { assert 1 in First().live; }
    hide Replays, NoTable, First, Second;
  }
}
