/** Where the daemon with its workers' kernel tables comes to a halt: exactly where the daemon itself
    panics, where a parked table lacks a module, and where a restore meets a table that is in use. */
module FleetHalts {
  import opened Options
  import opened Kernels
  import D = Daemon
  import opened Fleet

  /** A request other than a restore halts exactly if the daemon panics, or a client to be parked has a
      hash on its list without a module. Over all runs. */
  lemma RequestHalts(actions: seq<Action>, hash: Hash, a: D.Action)
    requires AllSane(actions, hash) && Exec(actions, hash).Fleet? && !a.RestoreJob?
    ensures var f := Exec(actions, hash);
            && f.d.State?
            && (a.DetachBegin? && D.Step(f.d, a).State? ==> Runs(f, a.client))
            && (Step(f, Ask(a), hash).Halted? <==>
                  || D.Step(f.d, a).Panicked?
                  || (a.DetachBegin? && exists h :: h in f.tables[WorkerOf(f, a.client)].active && h !in f.tables[WorkerOf(f, a.client)].all))
    ensures var f, g := Exec(actions, hash), Step(Exec(actions, hash), Ask(a), hash); g.Fleet? ==> g.d == D.Step(f.d, a)
  {
    hide Exec, AwayAfter, AllSane, Inv;
    RunKeeps(actions, hash);
    var f := Exec(actions, hash);
    InvMeans(f, AwayAfter(actions, hash), hash);
    EffectHalts(f, a, hash);
  }

  lemma InvMeans(f: Fleet, h: Away, hash: Hash)
    requires Inv(f, h, hash) && f.Fleet?
    ensures f.d.State? && Housed(f.d.children, f.tables, f.parked)
    ensures forall k :: D.IsWarm(f.d, k) ==> f.d.standby.value.worker in f.tables
  {
    hide Housed, Sound, D.Inv, Active;
    forall k | D.IsWarm(f.d, k) ensures f.d.standby.value.worker in f.tables {
      assert Covers(f.d.children, f.tables, f.parked, h, f.d.standby.value.worker, k);
    }
  }

  lemma EffectHalts(f: Fleet, a: D.Action, hash: Hash)
    requires f.Fleet? && f.d.State? && Housed(f.d.children, f.tables, f.parked) && !a.RestoreJob?
    requires forall k :: D.IsWarm(f.d, k) ==> f.d.standby.value.worker in f.tables
    ensures a.DetachBegin? && D.Step(f.d, a).State? ==> Runs(f, a.client)
    ensures Step(f, Ask(a), hash).Halted? <==>
              || D.Step(f.d, a).Panicked?
              || (a.DetachBegin? && exists h :: h in f.tables[WorkerOf(f, a.client)].active && h !in f.tables[WorkerOf(f, a.client)].all)
    ensures Step(f, Ask(a), hash).Fleet? ==> Step(f, Ask(a), hash).d == D.Step(f.d, a)
  {
    if a.DetachBegin? && Runs(f, a.client) { KnownMeans(f.tables[WorkerOf(f, a.client)]); }
    hide RegisteredAll, Restored, Attached, Saved, Known;
  }

  lemma KnownMeans(t: Table)
    ensures Known(t) <==> !exists h :: h in t.active && h !in t.all
  {
  }

  // ---------------------------------------------------------------- restores

  /** The client has a worker already, and modules are loaded there. */
  ghost predicate Occupied(f: Fleet, k: nat) {
    && f.Fleet? && f.d.State? && k in f.d.children && f.d.children[k].worker.Some?
    && f.d.children[k].worker.value in f.tables && f.tables[f.d.children[k].worker.value].all != map[]
  }

  ghost predicate Refused(f: Fleet, kernels: map<nat, Checkpoint>, k: nat) { k !in kernels || Occupied(f, k) }

  lemma RestoreOneHalts(f: Fleet, client: nat, ids: seq<int>, job: nat, devices: nat, worker: nat, c: Checkpoint)
    requires f.Fleet? && f.d.State?
    ensures RestoreOne(f, client, ids, job, devices, worker, c).Halted? <==>
            D.RestoreOne(f.d, client, ids, job, devices, worker).Panicked? || Occupied(f, client)
    ensures var g := RestoreOne(f, client, ids, job, devices, worker, c);
            g.Fleet? ==> g.d == D.RestoreOne(f.d, client, ids, job, devices, worker) && g.d.State?
  {
  }

  /** Restoring one client does not touch another's worker. */
  lemma OthersUntouched(f: Fleet, client: nat, ids: seq<int>, job: nat, devices: nat, worker: nat, c: Checkpoint, k: nat)
    requires f.Fleet? && f.d.State? && D.OwnedOnce(f.d.children, f.d.standby, f.d.detaching) && k != client
    requires client !in f.d.children ==> !D.Owned(f.d, worker)
    requires RestoreOne(f, client, ids, job, devices, worker, c).Fleet?
    ensures Occupied(RestoreOne(f, client, ids, job, devices, worker, c), k) <==> Occupied(f, k)
  {
  }

  lemma {:induction false} RestoreHaltsFrom(f: Fleet, order: seq<nat>, ids: map<nat, seq<int>>, todo: set<nat>, min: int, max: int, job: nat, devices: nat,
                                            workers: map<nat, nat>, kernels: map<nat, Checkpoint>)
    requires f.Fleet? && f.d.State? && D.Inv(f.d) && f.d.nextId == max + 1
    requires D.Unclaimed(f.d.children, ids, todo) && D.FreshWorkers(f.d, workers, todo) && D.DistinctIds(ids, min, max)
    requires D.EachOnce(order, todo) && todo <= ids.Keys
    ensures var d := D.RestoreClients(f.d, order, ids, job, devices, workers);
            var g := RestoreMany(f, order, ids, job, devices, workers, kernels);
            && (g.Halted? <==> d.Panicked? || exists k :: k in todo && Refused(f, kernels, k))
            && (g.Fleet? ==> g.d == d)
    decreases |order|
  {
    hide D.IdsDistinct, D.OwnedOnce, D.Unclaimed, D.DistinctIds, D.RestoreOne, RestoreOne, Occupied;
    if order == [] {
      assert forall k :: k in todo ==> k in order;
    } else {
      var client := order[0];
      assert client in todo && client in ids && client in workers;
      if client in kernels {
        var g := RestoreOne(f, client, ids[client], job, devices, workers[client], kernels[client]);
        RestoreOneHalts(f, client, ids[client], job, devices, workers[client], kernels[client]);
        if g.Fleet? {
          D.RestoreOneKeeps(f.d, ids, todo, client, min, max, job, devices, workers);
          D.EachOnceRest(order, todo);
          RestoreHaltsFrom(g, order[1..], ids, todo - {client}, min, max, job, devices, workers, kernels);
          assert D.OwnedOnce(f.d.children, f.d.standby, f.d.detaching);
          forall k | k in todo && k != client ensures Refused(g, kernels, k) <==> Refused(f, kernels, k) {
            OthersUntouched(f, client, ids[client], job, devices, workers[client], kernels[client], k);
          }
          RefusedRest(f, g, todo, client, kernels);
        } else if Occupied(f, client) {
          assert Refused(f, kernels, client);
        }
      } else {
        assert Refused(f, kernels, client);
      }
    }
  }

  lemma RefusedRest(f: Fleet, g: Fleet, todo: set<nat>, client: nat, kernels: map<nat, Checkpoint>)
    requires forall k :: k in todo && k != client ==> (Refused(g, kernels, k) <==> Refused(f, kernels, k))
    requires client in todo && !Refused(f, kernels, client)
    ensures (exists k :: k in todo && Refused(f, kernels, k)) <==> (exists k :: k in todo - {client} && Refused(g, kernels, k))
  {
    hide Refused;
    if k :| k in todo && Refused(f, kernels, k) {
      assert k in todo - {client} && Refused(g, kernels, k);
    }
  }

  lemma RestoreRuns(f: Fleet, a: D.Action, kernels: map<nat, Checkpoint>)
    requires f.Fleet? && f.d.State? && D.Inv(f.d) && a.RestoreJob? && D.Sane(f.d, a) && f.d.nextId <= a.min <= a.max
    ensures var moved := f.(d := f.d.(nextId := a.max + 1));
            var d := D.RestoreClients(moved.d, a.order, a.ids, a.job, a.devices, a.workers);
            var g := RestoreMany(moved, a.order, a.ids, a.job, a.devices, a.workers, kernels);
            && (g.Halted? <==> d.Panicked? || exists k :: k in a.ids.Keys && Refused(f, kernels, k))
            && (g.Fleet? ==> g.d == d)
  {
    hide RestoreMany, D.RestoreClients, D.IdsDistinct, D.OwnedOnce, D.Unclaimed, D.DistinctIds, D.EachOnce, D.FreshWorkers, Refused;
    D.NothingClaimed(f.d, a.ids, a.min, a.max);
    D.IdsBelow(f.d.children, f.d.nextId, a.max + 1);
    D.FreshAnyId(f.d, a.workers, a.ids.Keys, a.max + 1);
    var moved := f.(d := f.d.(nextId := a.max + 1));
    RestoreHaltsFrom(moved, a.order, a.ids, a.ids.Keys, a.min, a.max, a.job, a.devices, a.workers, kernels);
    forall k ensures Refused(moved, kernels, k) <==> Refused(f, kernels, k) { MovedIsRefused(f, a.max + 1, kernels, k); }
  }

  /** A restore halts exactly if the daemon panics, a client of the directory has no kernels there, or one
      has a worker already with modules loaded. Over all runs. */
  lemma RestoreHalts(actions: seq<Action>, hash: Hash, a: D.Action, kernels: map<nat, Checkpoint>)
    requires AllSane(actions, hash) && Exec(actions, hash).Fleet? && a.RestoreJob? && Sane(Exec(actions, hash), Request(a, kernels), hash)
    ensures var f, g := Exec(actions, hash), Step(Exec(actions, hash), Request(a, kernels), hash);
            && f.d.State?
            && (g.Halted? <==>
                  D.Step(f.d, a).Panicked? || (f.d.nextId <= a.min <= a.max && exists k :: k in a.ids.Keys && Refused(f, kernels, k)))
            && (g.Fleet? ==> g.d == D.Step(f.d, a))
  {
    hide Exec, AwayAfter, AllSane, Inv, RestoreMany, D.RestoreClients, D.Inv, D.Sane, Refused;
    RunKeeps(actions, hash);
    var f := Exec(actions, hash);
    DaemonInv(f, AwayAfter(actions, hash), hash);
    if f.d.nextId <= a.min <= a.max { RestoreRuns(f, a, kernels); }
  }

  lemma MovedIsRefused(f: Fleet, nextId: int, kernels: map<nat, Checkpoint>, k: nat)
    requires f.Fleet? && f.d.State?
    ensures Refused(f.(d := f.d.(nextId := nextId)), kernels, k) <==> Refused(f, kernels, k)
  {
  }

  lemma DaemonInv(f: Fleet, h: Away, hash: Hash)
    requires Inv(f, h, hash) && f.Fleet?
    ensures f.d.State? && D.Inv(f.d)
  {
  }
}
