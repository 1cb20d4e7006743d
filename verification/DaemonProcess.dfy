/** The daemon's state as the daemon holds it, each request updating it in place, and the scan of a
    checkpoint directory. A panic is reported as a false result. */
module DaemonProcess {
  import opened Options
  import opened Daemon

  class Inner {
    var nextId: int
    var children: map<nat, Child>
    var standbyWorker: Option<Standby>
    ghost var detaching: map<nat, nat>
    ghost var caches: map<nat, set<nat>>

    ghost function Value(): State
      reads this
    {
      State(nextId, children, standbyWorker, detaching, caches)
    }

    ghost predicate Valid()
      reads this
    {
      Inv(Value())
    }

    constructor ()
      ensures Value() == INIT && Valid()
    {
      nextId, children, standbyWorker := 0, map[], None;
      detaching, caches := map[], map[];
    }

    /** `get_or_spawn_child`; reaping is a step of its own. */
    method GetOrSpawnChild(client: nat, job: nat, devices: nat, spawned: nat) returns (ok: bool)
      modifies this`children, this`caches
      ensures ok <==> GetOrSpawn(old(Value()), client, job, devices, spawned).Some?
      ensures ok ==> Value() == GetOrSpawn(old(Value()), client, job, devices, spawned).value && client in children
      ensures !ok ==> Value() == old(Value())
    {
      if client in children {
        return children[client].job == job && children[client].devices == devices;
      }
      children := children[client := Child(job, devices, Some(spawned), [])];
      caches := caches - {spawned};
      ok := true;
    }

    method NewClientThread(client: nat, job: nat, devices: nat, spawned: nat) returns (ok: bool, id: int)
      requires Valid() && Sane(Value(), NewThread(client, job, devices, spawned))
      modifies this`nextId, this`children, this`caches
      ensures ok <==> Step(old(Value()), NewThread(client, job, devices, spawned)).State?
      ensures ok ==> Value() == Step(old(Value()), NewThread(client, job, devices, spawned)) && Valid() && id == old(nextId)
    {
      hide Inv, Sane;
      StepKeeps(Value(), NewThread(client, job, devices, spawned));
      id := nextId;
      nextId := nextId + 1;
      ok := GetOrSpawnChild(client, job, devices, spawned);
      if !ok { return; }
      if children[client].worker.None? { return false, id; }
      children := children[client := children[client].(ids := children[client].ids + [id])];
    }

    /** One turn of `restore_job`. */
    method RestoreChild(client: nat, ids: seq<int>, job: nat, devices: nat, worker: nat) returns (ok: bool)
      modifies this`children, this`caches
      ensures ok <==> RestoreOne(old(Value()), client, ids, job, devices, worker).State?
      ensures ok ==> Value() == RestoreOne(old(Value()), client, ids, job, devices, worker)
    {
      hide GetOrSpawn;
      ok := GetOrSpawnChild(client, job, devices, worker);
      if !ok { return; }
      if children[client].worker.None? { return false; }
      children := children[client := children[client].(ids := ids)];
    }

    method RestoreAll(order: seq<nat>, ids: map<nat, seq<int>>, job: nat, devices: nat, workers: map<nat, nat>) returns (ok: bool)
      requires forall k :: k in order ==> k in ids && k in workers
      modifies this`children, this`caches
      ensures ok <==> RestoreClients(old(Value()), order, ids, job, devices, workers).State?
      ensures ok ==> Value() == RestoreClients(old(Value()), order, ids, job, devices, workers)
    {
      hide RestoreOne;
      ghost var end := RestoreClients(Value(), order, ids, job, devices, workers);
      for i := 0 to |order|
        invariant RestoreClients(Value(), order[i..], ids, job, devices, workers) == end
      {
        var client := order[i];
        assert order[i..][0] == client && order[i..][1..] == order[i + 1..] && client in order;
        PanickedRestore(order[i + 1..], ids, job, devices, workers);
        ok := RestoreChild(client, ids[client], job, devices, workers[client]);
        if !ok { return; }
      }
      ok := true;
    }

    /** `restore_job`, up to handing the ids to the workers. */
    method RestoreJob(order: seq<nat>, ids: map<nat, seq<int>>, min: int, max: int, job: nat, devices: nat, workers: map<nat, nat>)
      returns (ok: bool)
      requires Valid() && Sane(Value(), Action.RestoreJob(order, ids, min, max, job, devices, workers))
      modifies this`nextId, this`children, this`caches
      ensures ok <==> Step(old(Value()), Action.RestoreJob(order, ids, min, max, job, devices, workers)).State?
      ensures ok ==> Value() == Step(old(Value()), Action.RestoreJob(order, ids, min, max, job, devices, workers)) && Valid()
    {
      hide Inv, Sane, RestoreClients;
      StepKeeps(Value(), Action.RestoreJob(order, ids, min, max, job, devices, workers));
      SaneRestore(Value(), order, ids, min, max, job, devices, workers);
      if !(nextId <= min && min <= max) { return false; }
      nextId := max + 1;
      ok := RestoreAll(order, ids, job, devices, workers);
    }

    /** First half of `detach`: the child gives up its worker. */
    method BeginDetach(client: nat) returns (worker: Option<nat>)
      requires Valid()
      modifies this`children, this`detaching
      ensures worker.Some? <==> Step(old(Value()), DetachBegin(client)).State?
      ensures worker.Some? ==> Value() == Step(old(Value()), DetachBegin(client)) && Valid()
      ensures worker.Some? ==> worker == old(children)[client].worker
    {
      hide Inv;
      StepKeeps(Value(), DetachBegin(client));
      if client !in children { return None; }
      var child := children[client];
      if |child.ids| != 1 || child.worker.None? { return None; }
      children := children[client := child.(worker := None)];
      detaching := detaching[child.worker.value := client];
      worker := child.worker;
    }

    method SetStandbyWorker(standby: Standby) returns (ok: bool)
      modifies this`standbyWorker
      ensures ok <==> old(standbyWorker).None?
      ensures standbyWorker == if ok then Some(standby) else old(standbyWorker)
    {
      if standbyWorker.Some? { return false; }
      standbyWorker := Some(standby);
      ok := true;
    }

    /** Second half, with the worker's answer: the clients in its cache if it is a standby. */
    method FinishDetach(worker: nat, clients: Option<set<nat>>) returns (ok: bool)
      requires Valid() && worker in detaching
      requires clients == if worker in caches then Some(caches[worker] + {detaching[worker]}) else None
      modifies this`standbyWorker, this`detaching, this`caches
      ensures ok <==> Step(old(Value()), DetachEnd(worker)).State?
      ensures ok ==> Value() == Step(old(Value()), DetachEnd(worker)) && Valid()
    {
      hide Inv;
      StepKeeps(Value(), DetachEnd(worker));
      detaching := detaching - {worker};
      ok := true;
      if clients.Some? {
        ok := SetStandbyWorker(Standby(worker, clients.value));
        caches := caches[worker := clients.value];
      }
    }

    method TakeStandbyWorker(client: nat) returns (taken: Option<Standby>)
      modifies this`standbyWorker
      ensures taken == if old(standbyWorker).Some? && client in old(standbyWorker).value.clients then old(standbyWorker) else None
      ensures standbyWorker == if taken.Some? then None else old(standbyWorker)
    {
      taken := None;
      if standbyWorker.Some? && client in standbyWorker.value.clients {
        taken := standbyWorker;
        standbyWorker := None;
      }
    }

    /** `attach`: on the standby worker if it covers the client, else on a new one. */
    method AttachClient(client: nat, spawned: nat) returns (ok: bool, id: int)
      requires Valid() && Sane(Value(), Attach(client, spawned))
      modifies this`children, this`standbyWorker, this`caches
      ensures ok <==> Step(old(Value()), Attach(client, spawned)).State?
      ensures ok ==> Value() == Step(old(Value()), Attach(client, spawned)) && Valid()
      ensures ok ==> old(children)[client].ids == [id]
    {
      hide Inv, Sane;
      StepKeeps(Value(), Attach(client, spawned));
      id := 0;
      var standby := TakeStandbyWorker(client);
      if client !in children { return false, id; }
      var child := children[client];
      if |child.ids| != 1 || child.worker.Some? { return false, id; }
      id := child.ids[0];
      var worker := if standby.Some? then standby.value.worker else spawned;
      children := children[client := child.(worker := Some(worker))];
      if standby.None? { caches := caches - {spawned}; }
      else if worker in caches { caches := caches[worker := caches[worker] - {client}]; }
      ok := true;
    }

    /** `standby_request`: the checks on the list. */
    method StandbyRequest(clients: seq<nat>) returns (ok: bool)
      ensures ok <==> clients != [] && standbyWorker.None?
                      && (forall i, j :: 0 <= i < j < |clients| ==> clients[i] != clients[j])
                      && (forall i :: 0 <= i < |clients| ==> MayStandBy(children, clients[0], clients[i]))
    {
      if clients == [] || standbyWorker.Some? { return false; }
      var dedup: set<nat> := {};
      var devices: Option<nat> := None;
      for n := 0 to |clients|
        invariant dedup == set k | k in clients[..n]
        invariant forall i, j :: 0 <= i < j < n ==> clients[i] != clients[j]
        invariant forall i :: 0 <= i < n ==> MayStandBy(children, clients[0], clients[i])
        invariant devices == if n == 0 then None else Some(children[clients[0]].devices)
      {
        var client := clients[n];
        assert clients[..n + 1] == clients[..n] + [client];
        if client in dedup { return false; }
        dedup := dedup + {client};
        if client !in children { return false; }
        if children[client].worker.Some? { return false; }
        if devices.None? { devices := Some(children[client].devices); }
        if children[client].devices != devices.value { return false; }
        if children[client].ids == [] { return false; }
      }
      ok := true;
    }

    /** `standby`: the list is checked, a worker is spawned and becomes the standby. */
    method PrepareStandbyWorker(clients: seq<nat>, spawned: nat) returns (ok: bool)
      requires Valid() && Sane(Value(), PrepareStandby(clients, spawned))
      modifies this`standbyWorker, this`caches
      ensures ok <==> Step(old(Value()), PrepareStandby(clients, spawned)).State?
      ensures ok ==> Value() == Step(old(Value()), PrepareStandby(clients, spawned)) && Valid()
    {
      hide Inv, Sane, MayStandBy;
      StepKeeps(Value(), PrepareStandby(clients, spawned));
      ok := StandbyRequest(clients);
      if !ok { return; }
      var covered := set k | k in clients;
      caches := caches[spawned := covered];
      ok := SetStandbyWorker(Standby(spawned, covered));
    }

    /** `reap_children`, for the pids `waitpid` has returned. */
    method ReapChildren(finished: set<nat>)
      requires Valid()
      modifies this`children, this`standbyWorker
      ensures Value() == Step(old(Value()), Reap(finished)) && Valid()
    {
      hide Inv;
      StepKeeps(Value(), Reap(finished));
      if finished == {} {
        assert children == map p | p in children && !(children[p].worker.Some? && children[p].worker.value in finished) :: children[p];
        return;
      }
      if standbyWorker.Some? && standbyWorker.value.worker in finished { standbyWorker := None; }
      children := map p | p in children && !(children[p].worker.Some? && children[p].worker.value in finished) :: children[p];
    }
  }

  lemma SaneRestore(s: State, order: seq<nat>, ids: map<nat, seq<int>>, min: int, max: int, job: nat, devices: nat, workers: map<nat, nat>)
    requires s.State? && Sane(s, Action.RestoreJob(order, ids, min, max, job, devices, workers))
    ensures forall k :: k in order ==> k in ids && k in workers
  {
  }

  lemma PanickedRestore(order: seq<nat>, ids: map<nat, seq<int>>, job: nat, devices: nat, workers: map<nat, nat>)
    ensures RestoreClients(Panicked, order, ids, job, devices, workers).Panicked?
  {
  }

  // ---------------------------------------------------------------- scanning a checkpoint directory

  /** A directory entry: None unless its name is a process id and a client id. */
  type Entry = Option<(nat, int)>

  function IdsOf(entries: seq<Entry>, client: nat): seq<int> {
    if entries == [] then []
    else
      var last := entries[|entries| - 1];
      IdsOf(entries[..|entries| - 1], client) + if last.Some? && last.value.0 == client then [last.value.1] else []
  }

  /** `RestoreInfo::scan`: ids by process in directory order, and their bounds. */
  method Scan(entries: seq<Entry>) returns (ids: map<nat, seq<int>>, min: int, max: int)
    ensures forall p :: p in ids <==> IdsOf(entries, p) != []
    ensures forall p :: p in ids ==> ids[p] == IdsOf(entries, p)
    ensures forall i :: 0 <= i < |entries| && entries[i].Some? ==> min <= entries[i].value.1 <= max
    ensures min == 0x7FFF_FFFF || exists i :: 0 <= i < |entries| && entries[i].Some? && entries[i].value.1 == min
    ensures max == 0 || exists i :: 0 <= i < |entries| && entries[i].Some? && entries[i].value.1 == max
  {
    ids, min, max := map[], 0x7FFF_FFFF, 0;
    for n := 0 to |entries|
      invariant forall p :: p in ids <==> IdsOf(entries[..n], p) != []
      invariant forall p :: p in ids ==> ids[p] == IdsOf(entries[..n], p)
      invariant forall i :: 0 <= i < n && entries[i].Some? ==> min <= entries[i].value.1 <= max
      invariant min == 0x7FFF_FFFF || exists i :: 0 <= i < n && entries[i].Some? && entries[i].value.1 == min
      invariant max == 0 || exists i :: 0 <= i < n && entries[i].Some? && entries[i].value.1 == max
    {
      assert entries[..n + 1][..n] == entries[..n];
      if entries[n].Some? {
        var (pid, id) := entries[n].value;
        ids := ids[pid := (if pid in ids then ids[pid] else []) + [id]];
        min := if id < min then id else min;
        max := if id > max then id else max;
      }
    }
    assert entries[..|entries|] == entries;
  }

  /** No two entries carry the same id. */
  ghost predicate DistinctEntries(entries: seq<Entry>) {
    forall i, j :: 0 <= i < j < |entries| && entries[i].Some? && entries[j].Some? ==> entries[i].value.1 != entries[j].value.1
  }

  lemma {:induction false} IdComesFrom(entries: seq<Entry>, client: nat, k: nat) returns (i: nat)
    requires k < |IdsOf(entries, client)|
    ensures i < |entries| && entries[i] == Some((client, IdsOf(entries, client)[k]))
  {
    var front := entries[..|entries| - 1];
    if k < |IdsOf(front, client)| { i := IdComesFrom(front, client, k); } else { i := |entries| - 1; }
  }

  lemma {:induction false} IdsOfDistinct(entries: seq<Entry>, client: nat)
    requires DistinctEntries(entries)
    ensures forall k, l :: 0 <= k < l < |IdsOf(entries, client)| ==> IdsOf(entries, client)[k] != IdsOf(entries, client)[l]
  {
    if entries != [] {
      var front := entries[..|entries| - 1];
      IdsOfDistinct(front, client);
      forall k | 0 <= k < |IdsOf(front, client)|
        ensures entries[|entries| - 1].Some? ==> IdsOf(front, client)[k] != entries[|entries| - 1].value.1
      {
        var i := IdComesFrom(front, client, k);
        assert entries[i] == front[i];
      }
    }
  }

  /** What the scan returns meets what a restore asks of a directory. */
  lemma ScanIsSound(entries: seq<Entry>, ids: map<nat, seq<int>>, min: int, max: int)
    requires DistinctEntries(entries)
    requires forall p :: p in ids ==> ids[p] == IdsOf(entries, p)
    requires forall i :: 0 <= i < |entries| && entries[i].Some? ==> min <= entries[i].value.1 <= max
    ensures DistinctIds(ids, min, max)
  {
    forall p, i | p in ids && 0 <= i < |ids[p]| ensures min <= ids[p][i] <= max {
      var e := IdComesFrom(entries, p, i);
    }
    forall p, i, j | p in ids && 0 <= i < j < |ids[p]| ensures ids[p][i] != ids[p][j] { IdsOfDistinct(entries, p); }
    forall p, q, i, j | p in ids && q in ids && p != q && 0 <= i < |ids[p]| && 0 <= j < |ids[q]| ensures ids[p][i] != ids[q][j] {
      var e := IdComesFrom(entries, p, i);
      var f := IdComesFrom(entries, q, j);
      assert e != f;
    }
  }
}
