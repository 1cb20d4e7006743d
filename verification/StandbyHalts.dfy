/** Where the daemon with its clients' handle tables comes to a halt: exactly where the daemon itself
    panics, where a log that must be replayed is not replayable, and where a client's own call panics. */
module StandbyHalts {
  import opened Options
  import D = Daemon
  import Log = HandleLog
  import opened StandbyHandles

  /** The log dumped for a client can be replayed. */
  ghost predicate DumpReplays(f: Site, client: nat) {
    f.Site? && client in f.dumped && f.dumped[client].State? && Log.Replayable(f.dumped[client].log, f.dumped[client].live)
  }

  /** A request other than a restore halts exactly if the daemon panics, or an attach has to replay a
      dumped log that does not replay. */
  lemma RequestHalts(actions: seq<Action>, a: D.Action)
    requires AllSane(actions) && NeverStale(actions) && Exec(actions).Site? && !a.RestoreJob?
    ensures var f := Exec(actions);
            f.d.State? &&
            (Step(f, Ask(a)).Halted? <==>
               || D.Step(f.d, a).Panicked?
               || (a.Attach? && !UsesKept(f, a.client) && !DumpReplays(f, a.client)))
    ensures var f, g := Exec(actions), Step(Exec(actions), Ask(a)); g.Site? ==> g.d == D.Step(f.d, a)
  {
    hide Exec, DriftAfter, AllSane, NeverStale, UsesKept, Log.Replayable;
    RunKeeps(actions);
    InvMeans(Exec(actions), DriftAfter(actions));
    EffectHalts(Exec(actions), a);
  }

  lemma InvMeans(f: Site, h: Drift)
    requires Inv(f, h) && f.Site?
    ensures f.d.State? && Housed(f.d.children, f.running, f.dumped)
  {
  }

  lemma EffectHalts(f: Site, a: D.Action)
    requires f.Site? && f.d.State? && Housed(f.d.children, f.running, f.dumped) && !a.RestoreJob?
    ensures Step(f, Ask(a)).Halted? <==>
               || D.Step(f.d, a).Panicked?
               || (a.Attach? && !UsesKept(f, a.client) && !DumpReplays(f, a.client))
    ensures Step(f, Ask(a)).Site? ==> Step(f, Ask(a)).d == D.Step(f.d, a)
  {
    hide UsesKept, Log.Replayable;
  }

  /** A restored directory: some client's table is missing or its log does not replay. */
  ghost predicate SomeLogFails(order: seq<nat>, found: map<nat, Table>) {
    exists i :: 0 <= i < |order| && !(order[i] in found && found[order[i]].State? && Log.Replayable(found[order[i]].log, found[order[i]].live))
  }

  lemma {:induction false} RestoreHaltsFrom(f: Site, order: seq<nat>, ids: map<nat, seq<int>>, job: nat, devices: nat, workers: map<nat, nat>,
                                            found: map<nat, Table>)
    requires f.Site? && f.d.State?
    ensures var d := D.RestoreClients(f.d, order, ids, job, devices, workers);
            var g := RestoreMany(f, order, ids, job, devices, workers, found);
            && (g.Halted? <==> d.Panicked? || SomeLogFails(order, found))
            && (g.Site? ==> g.d == d)
    decreases |order|
  {
    hide Log.Replayable, D.RestoreOne;
    if order != [] {
      if order[0] in ids && order[0] in workers && order[0] in found {
        var g := RestoreOne(f, order[0], ids[order[0]], job, devices, workers[order[0]], found[order[0]]);
        if g.Site? { RestoreHaltsFrom(g, order[1..], ids, job, devices, workers, found); }
        if Replays(found[order[0]]) { RestFails(order, found); }
      }
      FirstFails(order, found);
    }
  }

  lemma FirstFails(order: seq<nat>, found: map<nat, Table>)
    requires order != []
    ensures !(order[0] in found && Replays(found[order[0]])) ==> SomeLogFails(order, found)
  {
    hide Log.Replayable;
  }

  lemma RestFails(order: seq<nat>, found: map<nat, Table>)
    requires order != [] && order[0] in found && Replays(found[order[0]])
    ensures SomeLogFails(order, found) <==> SomeLogFails(order[1..], found)
  {
    hide Log.Replayable;
    if i :| 0 <= i < |order| && !(order[i] in found && found[order[i]].State? && Log.Replayable(found[order[i]].log, found[order[i]].live)) {
      assert order[1..][i - 1] == order[i];
    }
    if i :| 0 <= i < |order[1..]| && !(order[1..][i] in found && found[order[1..][i]].State? && Log.Replayable(found[order[1..][i]].log, found[order[1..][i]].live)) {
      assert order[1..][i] == order[i + 1];
    }
  }

  /** A restore halts exactly if the daemon panics or one of the logs found does not replay. */
  lemma RestoreHalts(f: Site, a: D.Action, found: map<nat, Table>)
    requires f.Site? && f.d.State? && a.RestoreJob?
    ensures var g := Step(f, Request(a, found));
            && (g.Halted? <==> D.Step(f.d, a).Panicked? || (f.d.nextId <= a.min <= a.max && SomeLogFails(a.order, found)))
            && (g.Site? ==> g.d == D.Step(f.d, a))
  {
    hide SomeLogFails, RestoreMany, D.RestoreClients;
    if f.d.nextId <= a.min <= a.max {
      RestoreHaltsFrom(f.(d := f.d.(nextId := a.max + 1)), a.order, a.ids, a.job, a.devices, a.workers, found);
    }
  }

  /** A worker process starts out keeping nothing. */
  lemma FreshKeepsNothing(f: Site, a: D.Action)
    requires f.Site? && f.d.State? && Step(f, Ask(a)).Site?
    ensures var g := Step(f, Ask(a));
            && (a.PrepareStandby? ==> forall k :: (a.spawned, k) !in g.kept)
            && (a.NewThread? && a.client !in f.d.children ==> forall k :: (a.spawned, k) !in g.kept)
            && (a.Attach? && !D.IsWarm(f.d, a.client) ==> forall k :: (a.spawned, k) !in g.kept)
            && (a.Attach? && D.IsWarm(f.d, a.client) ==> (f.d.standby.value.worker, a.client) !in g.kept)
  {
    hide UsesKept, Replays, RestoreMany;
  }
}
