/** The daemon's bookkeeping: which client ids are taken, which worker serves which client process,
    and the standby worker. Detaching releases the lock half way, so it is two steps; preparing a
    standby checks its list before it spawns and is taken as one. */
module Daemon {
  import opened Options

  /** `worker` is None while the client is detached. */
  datatype Child = Child(job: nat, devices: nat, worker: Option<nat>, ids: seq<int>)

  datatype Standby = Standby(worker: nat, clients: set<nat>)

  datatype State = State(
    nextId: int, children: map<nat, Child>, standby: Option<Standby>,
    detaching: map<nat, nat>,                  // workers between the two halves of a detach, and their client
    caches: map<nat, set<nat>>)                // a standby worker's own cache of parked clients
    | Panicked

  datatype Action =
    | NewThread(client: nat, job: nat, devices: nat, spawned: nat)
    | RestoreJob(order: seq<nat>, ids: map<nat, seq<int>>, min: int, max: int, job: nat, devices: nat, workers: map<nat, nat>)
    | DetachBegin(client: nat) | DetachEnd(worker: nat)
    | Attach(client: nat, spawned: nat)
    | PrepareStandby(clients: seq<nat>, spawned: nat)
    | Reap(finished: set<nat>)

  const INIT: State := State(0, map[], None, map[], map[])

  // ---------------------------------------------------------------- the operations

  /** Reaping forgets finished workers with their children; detached children have none. */
  function Reaped(s: State, finished: set<nat>): State
    requires s.State?
  {
    s.(standby := if s.standby.Some? && s.standby.value.worker in finished then None else s.standby,
       children := map p | p in s.children && !(s.children[p].worker.Some? && s.children[p].worker.value in finished)
                     :: s.children[p])
  }

  /** `get_or_spawn_child`; None where an assertion on the job or the devices fails. */
  function GetOrSpawn(s: State, client: nat, job: nat, devices: nat, spawned: nat): Option<State>
    requires s.State?
  {
    if client in s.children then
      if s.children[client].job == job && s.children[client].devices == devices then Some(s) else None
    else Some(s.(children := s.children[client := Child(job, devices, Some(spawned), [])], caches := s.caches - {spawned}))
  }

  function DoNewThread(s: State, client: nat, job: nat, devices: nat, spawned: nat): State
    requires s.State?
  {
    var id := s.nextId;
    match GetOrSpawn(s.(nextId := id + 1), client, job, devices, spawned)
    case None => Panicked
    case Some(t) =>
      var child := t.children[client];
      if child.worker.None? then Panicked else t.(children := t.children[client := child.(ids := child.ids + [id])])
  }

  /** One client of `restore_job`: it gets a child, and that child the ids in the directory. */
  function RestoreOne(s: State, client: nat, ids: seq<int>, job: nat, devices: nat, worker: nat): State
    requires s.State?
  {
    match GetOrSpawn(s, client, job, devices, worker)
    case None => Panicked
    case Some(t) =>
      if t.children[client].worker.None? then Panicked
      else t.(children := t.children[client := t.children[client].(ids := ids)])
  }

  function RestoreClients(s: State, order: seq<nat>, ids: map<nat, seq<int>>, job: nat, devices: nat, workers: map<nat, nat>): State
    decreases |order|
  {
    if s.Panicked? || order == [] then s
    else if order[0] !in ids || order[0] !in workers then Panicked
    else RestoreClients(RestoreOne(s, order[0], ids[order[0]], job, devices, workers[order[0]]), order[1..], ids, job, devices, workers)
  }

  function DoDetachBegin(s: State, client: nat): State
    requires s.State?
  {
    if client !in s.children || s.children[client].worker.None? || |s.children[client].ids| != 1 then Panicked
    else
      var child := s.children[client];
      s.(children := s.children[client := child.(worker := None)], detaching := s.detaching[child.worker.value := client])
  }

  /** The worker has dumped its state. If it is a standby it puts the client back into its cache and
      becomes the standby again; otherwise it exits. */
  function DoDetachEnd(s: State, worker: nat): State
    requires s.State?
  {
    if worker !in s.detaching then s
    else
      var t := s.(detaching := s.detaching - {worker});
      if worker !in s.caches then t
      else
        var clients := s.caches[worker] + {s.detaching[worker]};
        if s.standby.Some? then Panicked
        else t.(caches := s.caches[worker := clients], standby := Some(Standby(worker, clients)))
  }

  function DoAttach(s: State, client: nat, spawned: nat): State
    requires s.State?
  {
    var warm := s.standby.Some? && client in s.standby.value.clients;
    var worker := if warm then s.standby.value.worker else spawned;
    if client !in s.children || |s.children[client].ids| != 1 || s.children[client].worker.Some? then Panicked
    else
      s.(children := s.children[client := s.children[client].(worker := Some(worker))],
         standby := if warm then None else s.standby,
         caches := if !warm then s.caches - {spawned}
                   else if worker in s.caches then s.caches[worker := s.caches[worker] - {client}] else s.caches)
  }

  /** A parked client, visible to the same devices as the first of the list. */
  predicate MayStandBy(children: map<nat, Child>, first: nat, client: nat) {
    && first in children && client in children && children[client].worker.None? && children[client].ids != []
    && children[client].devices == children[first].devices
  }

  function DoPrepareStandby(s: State, clients: seq<nat>, spawned: nat): State
    requires s.State?
  {
    if clients == [] || s.standby.Some?
       || !(forall i, j :: 0 <= i < j < |clients| ==> clients[i] != clients[j])
       || !(forall i :: 0 <= i < |clients| ==> MayStandBy(s.children, clients[0], clients[i]))
    then Panicked
    else
      var set_ := set k | k in clients;
      s.(standby := Some(Standby(spawned, set_)), caches := s.caches[spawned := set_])
  }

  function Step(s: State, a: Action): State {
    if s.Panicked? then s else match a
      case NewThread(client, job, devices, spawned) => DoNewThread(s, client, job, devices, spawned)
      case RestoreJob(order, ids, min, max, job, devices, workers) =>
        if !(s.nextId <= min <= max) then Panicked
        else RestoreClients(s.(nextId := max + 1), order, ids, job, devices, workers)
      case DetachBegin(client) => DoDetachBegin(s, client)
      case DetachEnd(worker) => DoDetachEnd(s, worker)
      case Attach(client, spawned) => DoAttach(s, client, spawned)
      case PrepareStandby(clients, spawned) => DoPrepareStandby(s, clients, spawned)
      case Reap(finished) => Reaped(s, finished)
  }

  // ---------------------------------------------------------------- the invariant

  ghost predicate IdsDistinct(children: map<nat, Child>, nextId: int) {
    && (forall p, i :: p in children && 0 <= i < |children[p].ids| ==> children[p].ids[i] < nextId)
    && (forall p, i, j :: p in children && 0 <= i < j < |children[p].ids| ==> children[p].ids[i] != children[p].ids[j])
    && (forall p, q, i, j :: p in children && q in children && p != q && 0 <= i < |children[p].ids| && 0 <= j < |children[q].ids| ==>
          children[p].ids[i] != children[q].ids[j])
  }

  /** No worker is owned twice: by two children, a child and the standby slot, or a detach under way. */
  ghost predicate OwnedOnce(children: map<nat, Child>, standby: Option<Standby>, detaching: map<nat, nat>) {
    && (forall p, q :: p in children && q in children && p != q && children[p].worker.Some? ==> children[p].worker != children[q].worker)
    && (forall p :: p in children && children[p].worker.Some? ==>
          && children[p].worker.value !in detaching
          && (standby.Some? ==> children[p].worker.value != standby.value.worker))
    && (standby.Some? ==> standby.value.worker !in detaching)
  }

  ghost predicate Inv(s: State) {
    s.State? ==> 0 <= s.nextId && IdsDistinct(s.children, s.nextId) && OwnedOnce(s.children, s.standby, s.detaching)
  }

  ghost predicate Owned(s: State, w: nat)
    requires s.State?
  {
    || (exists p :: p in s.children && s.children[p].worker == Some(w))
    || (s.standby.Some? && s.standby.value.worker == w)
    || w in s.detaching
  }

  /** A checkpoint directory: distinct ids, between the scanned bounds. */
  ghost predicate DistinctIds(ids: map<nat, seq<int>>, min: int, max: int) {
    && (forall p, i :: p in ids && 0 <= i < |ids[p]| ==> min <= ids[p][i] <= max)
    && (forall p, i, j :: p in ids && 0 <= i < j < |ids[p]| ==> ids[p][i] != ids[p][j])
    && (forall p, q, i, j :: p in ids && q in ids && p != q && 0 <= i < |ids[p]| && 0 <= j < |ids[q]| ==> ids[p][i] != ids[q][j])
  }

  /** The clients of the directory, each once. */
  ghost predicate EachOnce(order: seq<nat>, clients: set<nat>) {
    && (forall k :: k in order <==> k in clients)
    && (forall i, j :: 0 <= i < j < |order| ==> order[i] != order[j])
  }

  ghost predicate FreshWorkers(s: State, workers: map<nat, nat>, clients: set<nat>)
    requires s.State?
  {
    && clients <= workers.Keys
    && (forall p :: p in clients ==> !Owned(s, workers[p]))
    && (forall p, q :: p in clients && q in clients && p != q ==> workers[p] != workers[q])
  }

  /** What the system guarantees of an action's inputs: fresh worker pids and a sound directory. */
  ghost predicate Sane(s: State, a: Action) {
    s.State? ==> match a
      case NewThread(_, _, _, spawned) => !Owned(s, spawned)
      case RestoreJob(order, ids, min, max, _, _, workers) =>
        && EachOnce(order, ids.Keys) && DistinctIds(ids, min, max) && FreshWorkers(s, workers, ids.Keys)
      case Attach(_, spawned) => !Owned(s, spawned)
      case PrepareStandby(_, spawned) => !Owned(s, spawned)
      case _ => true
  }

  lemma SpawnKeeps(s: State, client: nat, job: nat, devices: nat, spawned: nat)
    requires s.State? && Inv(s) && (client !in s.children ==> !Owned(s, spawned))
    requires GetOrSpawn(s, client, job, devices, spawned).Some?
    ensures var t := GetOrSpawn(s, client, job, devices, spawned).value; t.State? && Inv(t) && client in t.children
  {
  }

  lemma IdAppended(children: map<nat, Child>, client: nat, id: int)
    requires IdsDistinct(children, id) && client in children
    ensures IdsDistinct(children[client := children[client].(ids := children[client].ids + [id])], id + 1)
  {
  }

  lemma IdsBelow(children: map<nat, Child>, n: int, m: int)
    requires IdsDistinct(children, n) && n <= m
    ensures IdsDistinct(children, m)
  {
  }

  lemma SpawnedIds(children: map<nat, Child>, n: int, client: nat, child: Child)
    requires IdsDistinct(children, n) && child.ids == []
    ensures IdsDistinct(children[client := child], n)
  {
  }

  lemma NewThreadKeeps(s: State, client: nat, job: nat, devices: nat, spawned: nat)
    requires s.State? && Inv(s) && !Owned(s, spawned)
    ensures Inv(DoNewThread(s, client, job, devices, spawned))
  {
    hide IdsDistinct, OwnedOnce, Owned, GetOrSpawn;
    var id := s.nextId;
    var u := s.(nextId := id + 1);
    SameOwned(s, u, spawned);
    IdsBelow(s.children, id, id + 1);
    var t := GetOrSpawn(u, client, job, devices, spawned);
    if t.Some? {
      SpawnKeeps(u, client, job, devices, spawned);
      SpawnedState(s, u, client, job, devices, spawned);
      IdAppended(t.value.children, client, id);
      WorkersReplaced(t.value.children, t.value.standby, t.value.detaching, client, t.value.children[client].ids + [id]);
    }
  }

  lemma SpawnedState(s: State, u: State, client: nat, job: nat, devices: nat, spawned: nat)
    requires s.State? && u == s.(nextId := s.nextId + 1) && IdsDistinct(s.children, s.nextId)
    requires GetOrSpawn(u, client, job, devices, spawned).Some?
    ensures var t := GetOrSpawn(u, client, job, devices, spawned).value;
            t.State? && t.nextId == u.nextId && IdsDistinct(t.children, s.nextId)
  {
    hide IdsDistinct;
    SpawnedIds(s.children, s.nextId, client, Child(job, devices, Some(spawned), []));
  }

  lemma SameOwned(s: State, t: State, w: nat)
    requires s.State? && t.State? && s.children == t.children && s.standby == t.standby && s.detaching == t.detaching
    ensures Owned(s, w) == Owned(t, w)
  {
  }

  /** No id of the directory is taken yet by the clients still to restore. */
  ghost predicate Unclaimed(children: map<nat, Child>, ids: map<nat, seq<int>>, todo: set<nat>) {
    forall p, q, i, j :: p in children && q in todo && q in ids && 0 <= i < |children[p].ids| && 0 <= j < |ids[q]| ==>
      children[p].ids[i] != ids[q][j]
  }

  lemma IdsReplaced(children: map<nat, Child>, ids: map<nat, seq<int>>, todo: set<nat>, client: nat, min: int, max: int)
    requires IdsDistinct(children, max + 1) && Unclaimed(children, ids, todo) && DistinctIds(ids, min, max)
    requires client in todo && client in children && client in ids
    ensures var children' := children[client := children[client].(ids := ids[client])];
            IdsDistinct(children', max + 1) && Unclaimed(children', ids, todo - {client})
  {
  }

  lemma WorkersReplaced(children: map<nat, Child>, standby: Option<Standby>, detaching: map<nat, nat>, client: nat, ids: seq<int>)
    requires OwnedOnce(children, standby, detaching) && client in children
    ensures OwnedOnce(children[client := children[client].(ids := ids)], standby, detaching)
  {
  }

  /** Getting or spawning one child leaves the others' workers fresh and the ids unclaimed. */
  lemma SpawnForRestore(s: State, ids: map<nat, seq<int>>, todo: set<nat>, client: nat, job: nat, devices: nat, workers: map<nat, nat>)
    requires s.State? && FreshWorkers(s, workers, todo) && client in todo && Unclaimed(s.children, ids, todo)
    requires GetOrSpawn(s, client, job, devices, workers[client]).Some?
    ensures var t := GetOrSpawn(s, client, job, devices, workers[client]).value;
            t.State? && t.nextId == s.nextId && FreshWorkers(t, workers, todo - {client}) && Unclaimed(t.children, ids, todo)
  {
  }

  lemma FreshAfterIds(s: State, workers: map<nat, nat>, todo: set<nat>, client: nat, ids: seq<int>)
    requires s.State? && FreshWorkers(s, workers, todo) && client in s.children
    ensures FreshWorkers(s.(children := s.children[client := s.children[client].(ids := ids)]), workers, todo)
  {
    var t := s.(children := s.children[client := s.children[client].(ids := ids)]);
    forall p | p in todo ensures !Owned(t, workers[p]) {
      assert !Owned(s, workers[p]);
    }
  }

  lemma RestoreOneKeeps(s: State, ids: map<nat, seq<int>>, todo: set<nat>, client: nat, min: int, max: int, job: nat, devices: nat,
                        workers: map<nat, nat>)
    requires s.State? && Inv(s) && s.nextId == max + 1 && client in todo && client in ids && client in workers
    requires DistinctIds(ids, min, max) && Unclaimed(s.children, ids, todo) && FreshWorkers(s, workers, todo)
    ensures var t := RestoreOne(s, client, ids[client], job, devices, workers[client]);
            Inv(t) && (t.State? ==> t.nextId == max + 1 && Unclaimed(t.children, ids, todo - {client}) && FreshWorkers(t, workers, todo - {client}))
  {
    assert !Owned(s, workers[client]);
    hide IdsDistinct, OwnedOnce, DistinctIds, Unclaimed, Owned, FreshWorkers;
    var spawned := GetOrSpawn(s, client, job, devices, workers[client]);
    if spawned.Some? {
      SpawnKeeps(s, client, job, devices, workers[client]);
      SpawnForRestore(s, ids, todo, client, job, devices, workers);
      var t := spawned.value;
      IdsReplaced(t.children, ids, todo, client, min, max);
      WorkersReplaced(t.children, t.standby, t.detaching, client, ids[client]);
      FreshAfterIds(t, workers, todo - {client}, client, ids[client]);
    }
  }

  lemma {:induction false} RestoreKeeps(s: State, order: seq<nat>, ids: map<nat, seq<int>>, todo: set<nat>, min: int, max: int, job: nat, devices: nat,
                                        workers: map<nat, nat>)
    requires s.State? ==> Inv(s) && s.nextId == max + 1 && Unclaimed(s.children, ids, todo) && FreshWorkers(s, workers, todo)
    requires EachOnce(order, todo) && todo <= ids.Keys && DistinctIds(ids, min, max)
    ensures Inv(RestoreClients(s, order, ids, job, devices, workers))
    decreases |order|
  {
    hide IdsDistinct, OwnedOnce, DistinctIds, Unclaimed, Owned, RestoreOne;
    if s.State? && order != [] {
      var client := order[0];
      RestoreOneKeeps(s, ids, todo, client, min, max, job, devices, workers);
      EachOnceRest(order, todo);
      RestoreKeeps(RestoreOne(s, client, ids[client], job, devices, workers[client]), order[1..], ids, todo - {client}, min, max, job, devices, workers);
    }
  }

  lemma EachOnceRest(order: seq<nat>, todo: set<nat>)
    requires EachOnce(order, todo) && order != []
    ensures EachOnce(order[1..], todo - {order[0]})
  {
    assert forall k :: k in order <==> k == order[0] || k in order[1..];
  }

  lemma NothingClaimed(s: State, ids: map<nat, seq<int>>, min: int, max: int)
    requires s.State? && IdsDistinct(s.children, s.nextId) && DistinctIds(ids, min, max) && s.nextId <= min
    ensures Unclaimed(s.children, ids, ids.Keys)
  {
  }

  lemma FreshAnyId(s: State, workers: map<nat, nat>, clients: set<nat>, nextId: int)
    requires s.State? && FreshWorkers(s, workers, clients)
    ensures FreshWorkers(s.(nextId := nextId), workers, clients)
  {
    forall p | p in clients ensures !Owned(s.(nextId := nextId), workers[p]) {
      SameOwned(s, s.(nextId := nextId), workers[p]);
    }
  }

  lemma RestoreJobKeeps(s: State, order: seq<nat>, ids: map<nat, seq<int>>, min: int, max: int, job: nat, devices: nat, workers: map<nat, nat>)
    requires s.State? && Inv(s) && Sane(s, RestoreJob(order, ids, min, max, job, devices, workers)) && s.nextId <= min <= max
    ensures Inv(RestoreClients(s.(nextId := max + 1), order, ids, job, devices, workers))
  {
    hide IdsDistinct, OwnedOnce, DistinctIds, Unclaimed, FreshWorkers, EachOnce;
    NothingClaimed(s, ids, min, max);
    IdsBelow(s.children, s.nextId, max + 1);
    FreshAnyId(s, workers, ids.Keys, max + 1);
    RestoreKeeps(s.(nextId := max + 1), order, ids, ids.Keys, min, max, job, devices, workers);
  }

  /** Giving a parked child an unowned worker, taking a child's worker away, dropping children. */
  lemma WorkerGiven(s: State, client: nat, worker: nat, standby: Option<Standby>)
    requires s.State? && OwnedOnce(s.children, s.standby, s.detaching) && client in s.children && s.children[client].worker.None?
    requires (!Owned(s, worker) && standby == s.standby) || (s.standby.Some? && s.standby.value.worker == worker && standby.None?)
    ensures OwnedOnce(s.children[client := s.children[client].(worker := Some(worker))], standby, s.detaching)
  {
  }

  lemma WorkerTaken(s: State, client: nat)
    requires s.State? && OwnedOnce(s.children, s.standby, s.detaching) && client in s.children && s.children[client].worker.Some?
    ensures OwnedOnce(s.children[client := s.children[client].(worker := None)], s.standby, s.detaching[s.children[client].worker.value := client])
  {
  }

  lemma WorkerChangeKeepsIds(children: map<nat, Child>, n: int, client: nat, worker: Option<nat>)
    requires IdsDistinct(children, n) && client in children
    ensures IdsDistinct(children[client := children[client].(worker := worker)], n)
  {
  }

  lemma ReapedKeeps(s: State, finished: set<nat>)
    requires s.State? && Inv(s)
    ensures Inv(Reaped(s, finished))
  {
  }

  lemma DetachEndKeeps(s: State, worker: nat)
    requires s.State? && Inv(s)
    ensures Inv(DoDetachEnd(s, worker))
  {
  }

  lemma PrepareKeeps(s: State, clients: seq<nat>, spawned: nat)
    requires s.State? && Inv(s) && !Owned(s, spawned)
    ensures Inv(DoPrepareStandby(s, clients, spawned))
  {
    hide IdsDistinct, MayStandBy;
  }

  lemma AttachKeeps(s: State, client: nat, spawned: nat)
    requires s.State? && Inv(s) && !Owned(s, spawned)
    ensures Inv(DoAttach(s, client, spawned))
  {
    hide IdsDistinct, OwnedOnce, Owned;
    var warm := s.standby.Some? && client in s.standby.value.clients;
    var worker := if warm then s.standby.value.worker else spawned;
    if client in s.children && s.children[client].worker.None? {
      WorkerGiven(s, client, worker, if warm then None else s.standby);
      WorkerChangeKeepsIds(s.children, s.nextId, client, Some(worker));
    }
  }

  lemma StepKeeps(s: State, a: Action)
    requires Inv(s) && Sane(s, a)
    ensures Inv(Step(s, a))
  {
    hide IdsDistinct, OwnedOnce, Owned, DoNewThread, DoDetachEnd, DoAttach, DoPrepareStandby, Reaped, RestoreClients, DistinctIds, FreshWorkers, EachOnce;
    if s.State? {
      match a
      case NewThread(client, job, devices, spawned) => NewThreadKeeps(s, client, job, devices, spawned);
      case RestoreJob(order, ids, min, max, job, devices, workers) =>
        if s.nextId <= min <= max { RestoreJobKeeps(s, order, ids, min, max, job, devices, workers); }
      case DetachBegin(client) =>
        if client in s.children && s.children[client].worker.Some? {
          WorkerTaken(s, client);
          WorkerChangeKeepsIds(s.children, s.nextId, client, None);
        }
      case DetachEnd(worker) => DetachEndKeeps(s, worker);
      case Attach(client, spawned) => AttachKeeps(s, client, spawned);
      case PrepareStandby(clients, spawned) => PrepareKeeps(s, clients, spawned);
      case Reap(finished) => ReapedKeeps(s, finished);
    }
  }

  // ---------------------------------------------------------------- what restoring and reaping leave

  /** A client of the directory: the directory's ids, and the worker it had or the one spawned for it. */
  ghost predicate Restored(s: State, t: State, client: nat, ids: seq<int>, job: nat, devices: nat, worker: nat)
    requires s.State? && t.State?
  {
    && client in t.children && t.children[client].ids == ids
    && t.children[client].job == job && t.children[client].devices == devices && t.children[client].worker.Some?
    && t.children[client].worker == (if client in s.children then s.children[client].worker else Some(worker))
  }

  ghost predicate Untouched(s: State, t: State, client: nat)
    requires s.State? && t.State?
  {
    (client in t.children <==> client in s.children) && (client in s.children ==> t.children[client] == s.children[client])
  }

  lemma RestoreOneIs(s: State, client: nat, ids: seq<int>, job: nat, devices: nat, worker: nat)
    requires s.State? && RestoreOne(s, client, ids, job, devices, worker).State?
    ensures var t := RestoreOne(s, client, ids, job, devices, worker);
            && Restored(s, t, client, ids, job, devices, worker)
            && (forall k :: k != client ==> Untouched(s, t, k))
            && t.nextId == s.nextId && t.standby == s.standby && t.detaching == s.detaching
  {
  }

  lemma {:induction false} RestoredAll(s: State, order: seq<nat>, ids: map<nat, seq<int>>, todo: set<nat>, job: nat, devices: nat, workers: map<nat, nat>)
    requires s.State? && RestoreClients(s, order, ids, job, devices, workers).State? && EachOnce(order, todo)
    ensures todo <= ids.Keys && todo <= workers.Keys
    ensures var t := RestoreClients(s, order, ids, job, devices, workers);
            && (forall k :: k in todo ==> Restored(s, t, k, ids[k], job, devices, workers[k]))
            && (forall k :: k !in todo ==> Untouched(s, t, k))
            && t.nextId == s.nextId && t.standby == s.standby && t.detaching == s.detaching
    decreases |order|
  {
    hide RestoreOne;
    if order == [] {
      assert forall k :: k in todo ==> k in order;
    } else {
      var client := order[0];
      var one := RestoreOne(s, client, ids[client], job, devices, workers[client]);
      RestoreOneIs(s, client, ids[client], job, devices, workers[client]);
      EachOnceRest(order, todo);
      RestoredAll(one, order[1..], ids, todo - {client}, job, devices, workers);
      var t := RestoreClients(s, order, ids, job, devices, workers);
      assert todo <= ids.Keys && todo <= workers.Keys;
      forall k
        ensures k in todo ==> Restored(s, t, k, ids[k], job, devices, workers[k])
        ensures k !in todo ==> Untouched(s, t, k)
      {
        if k == client {
          assert Untouched(one, t, k);
        } else {
          assert Untouched(s, one, k);
          if k in todo { assert Restored(one, t, k, ids[k], job, devices, workers[k]); } else { assert Untouched(one, t, k); }
        }
      }
    }
  }

  /** A restored job: every client of the checkpoint directory has a child of that job and those
      devices, with exactly the directory's ids and a worker; nobody else is touched; and the next id
      is the one after the directory's last. */
  lemma RestoreCarriesIds(s: State, order: seq<nat>, ids: map<nat, seq<int>>, min: int, max: int, job: nat, devices: nat, workers: map<nat, nat>)
    requires s.State? && EachOnce(order, ids.Keys) && Step(s, RestoreJob(order, ids, min, max, job, devices, workers)).State?
    ensures ids.Keys <= workers.Keys
    ensures var t := Step(s, RestoreJob(order, ids, min, max, job, devices, workers));
            && (forall k :: k in ids ==> Restored(s, t, k, ids[k], job, devices, workers[k]))
            && (forall k :: k !in ids ==> Untouched(s, t, k))
            && s.nextId <= min && t.nextId == max + 1 && t.standby == s.standby && t.detaching == s.detaching
  {
    RestoredAll(s.(nextId := max + 1), order, ids, ids.Keys, job, devices, workers);
  }

  /** Reaping forgets exactly the children of finished workers, and the standby if it finished: no
      finished worker serves anyone afterwards, and nothing else changes. */
  lemma ReapForgetsFinished(s: State, finished: set<nat>)
    requires s.State?
    ensures var t := Step(s, Reap(finished));
            && t.State? && t.nextId == s.nextId && t.detaching == s.detaching && t.caches == s.caches
            && (forall w, k :: w in finished && k in t.children ==> t.children[k].worker != Some(w))
            && (forall k :: k in s.children && (k !in t.children || t.children[k] != s.children[k]) ==>
                  k !in t.children && exists w :: w in finished && s.children[k].worker == Some(w))
            && t.children.Keys <= s.children.Keys
            && t.standby == (if exists w :: w in finished && s.standby.Some? && s.standby.value.worker == w then None else s.standby)
  {
  }

  /** A new thread gets the next id, behind the ids its client has, and nobody else is touched. */
  lemma NewThreadIs(s: State, client: nat, job: nat, devices: nat, spawned: nat)
    requires s.State? && Step(s, NewThread(client, job, devices, spawned)).State?
    ensures var t := Step(s, NewThread(client, job, devices, spawned));
            var before := if client in s.children then s.children[client].ids else [];
            && Restored(s, t, client, before + [s.nextId], job, devices, spawned)
            && (forall k :: k != client ==> Untouched(s, t, k))
            && t.nextId == s.nextId + 1 && t.standby == s.standby && t.detaching == s.detaching
  {
  }

  // ---------------------------------------------------------------- whole runs

  ghost function Exec(s: State, actions: seq<Action>): State {
    if actions == [] then s else Step(Exec(s, actions[..|actions| - 1]), actions[|actions| - 1])
  }

  ghost predicate AllSane(s: State, actions: seq<Action>) {
    actions != [] ==> AllSane(s, actions[..|actions| - 1]) && Sane(Exec(s, actions[..|actions| - 1]), actions[|actions| - 1])
  }

  lemma {:induction false} RunKeeps(s: State, actions: seq<Action>)
    requires Inv(s) && AllSane(s, actions)
    ensures Inv(Exec(s, actions))
  {
    hide Inv, Step, Sane;
    if actions != [] {
      RunKeeps(s, actions[..|actions| - 1]);
      StepKeeps(Exec(s, actions[..|actions| - 1]), actions[|actions| - 1]);
    }
  }

  /** Main result: in every state the daemon can reach, given fresh worker pids and sound checkpoint
      directories, client ids are distinct and below `next_id`, and no worker has two owners. */
  lemma NothingIsOwnedTwice(actions: seq<Action>)
    requires AllSane(INIT, actions)
    ensures Exec(INIT, actions).State? ==>
              var s := Exec(INIT, actions);
              IdsDistinct(s.children, s.nextId) && OwnedOnce(s.children, s.standby, s.detaching)
  {
    InitInv();
    RunKeeps(INIT, actions);
  }

  lemma InitInv()
    ensures Inv(INIT)
  {
  }

  // ---------------------------------------------------------------- who runs where

  /** An attach of this client goes to the standby worker. */
  ghost predicate IsWarm(d: State, client: nat) {
    d.State? && d.standby.Some? && client in d.standby.value.clients
  }

  lemma NotRunning(d: State, w: nat)
    requires d.State? && !Owned(d, w)
    ensures forall k :: k in d.children ==> d.children[k].worker != Some(w)
  {
  }

  lemma StandbyAlone(d: State)
    requires d.State? && OwnedOnce(d.children, d.standby, d.detaching) && d.standby.Some?
    ensures forall k :: k in d.children ==> d.children[k].worker != Some(d.standby.value.worker)
  {
  }

  /** Two clients with a thread each, for the runs that show a failure. */
  ghost function Kids(w1: Option<nat>, w2: Option<nat>): map<nat, Child> {
    map[1 := Child(0, 0, w1, [0]), 2 := Child(0, 0, w2, [1])]
  }

  // ---------------------------------------------------------------- parked clients

  ghost predicate Parked(s: State, client: nat) {
    s.State? && client in s.children && s.children[client].worker.None?
  }

  lemma {:induction false} RestoreLeavesParked(s: State, order: seq<nat>, ids: map<nat, seq<int>>, job: nat, devices: nat, workers: map<nat, nat>, client: nat)
    requires Parked(s, client)
    ensures var t := RestoreClients(s, order, ids, job, devices, workers);
            t.State? ==> Parked(t, client) && t.children[client] == s.children[client]
    decreases |order|
  {
    if order != [] && order[0] in ids && order[0] in workers {
      var t := RestoreOne(s, order[0], ids[order[0]], job, devices, workers[order[0]]);
      if t.State? { RestoreLeavesParked(t, order[1..], ids, job, devices, workers, client); }
    }
  }

  lemma StepLeavesParked(s: State, a: Action, client: nat)
    requires Parked(s, client) && !(a.Attach? && a.client == client)
    ensures var t := Step(s, a); t.State? ==> Parked(t, client) && t.children[client] == s.children[client]
  {
    if a.RestoreJob? && s.nextId <= a.min <= a.max {
      RestoreLeavesParked(s.(nextId := a.max + 1), a.order, a.ids, a.job, a.devices, a.workers, client);
    }
  }

  /** A detached client is never reaped, renumbered or taken over: until it is attached its record
      stays as it was, so an attach resumes it under the id it was parked with. */
  lemma {:induction false} ParkedClientsAreKept(s: State, actions: seq<Action>, client: nat)
    requires Parked(s, client) && forall i :: 0 <= i < |actions| ==> !(actions[i].Attach? && actions[i].client == client)
    ensures var t := Exec(s, actions); t.State? ==> Parked(t, client) && t.children[client] == s.children[client]
  {
    hide Step;
    if actions != [] {
      var front, last := actions[..|actions| - 1], actions[|actions| - 1];
      assert forall i :: 0 <= i < |front| ==> front[i] == actions[i];
      ParkedClientsAreKept(s, front, client);
      if Exec(s, front).State? { StepLeavesParked(Exec(s, front), last, client); } else { PanicIsFinal(last); }
    }
  }

  lemma PanicIsFinal(a: Action)
    ensures Step(Panicked, a) == Panicked
  {
  }

  /** Detaching a client and attaching it again undoes the detach: on a standby worker, which takes the
      client back, the daemon is exactly as before; on any other, but for the new worker. */
  lemma AttachUndoesDetach(s: State, client: nat, spawned: nat)
    requires s.State? && client in s.children && s.children[client].worker.Some? && |s.children[client].ids| == 1
    requires s.standby.None? && s.children[client].worker.value !in s.detaching
    requires s.children[client].worker.value in s.caches ==> client !in s.caches[s.children[client].worker.value]
    ensures var w := s.children[client].worker.value;
            var t := Step(Step(Step(s, DetachBegin(client)), DetachEnd(w)), Attach(client, spawned));
            t == if w in s.caches then s
                 else s.(children := s.children[client := s.children[client].(worker := Some(spawned))], caches := s.caches - {spawned})
  {
    var w := s.children[client].worker.value;
    var a := Step(s, DetachBegin(client));
    var b := Step(a, DetachEnd(w));
    assert a.detaching - {w} == s.detaching;
    assert b.detaching == s.detaching;
    var t := Step(b, Attach(client, spawned));
    if w in s.caches {
      assert s.caches[w] + {client} - {client} == s.caches[w];
      assert t.caches == s.caches && t.children == s.children;
    } else {
      assert t.children == s.children[client := s.children[client].(worker := Some(spawned))];
    }
  }
}
