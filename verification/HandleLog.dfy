/** The record/replay log of server-side handles, seen as one list in timestamp order: what every
    call does to it, and what replaying it from nothing rebuilds. */
module HandleLog {
  import opened Bytes
  import opened Filters
  import opened Options

  /** A recorded call: it creates or modifies `proxy`, looks up `uses`, and its request was `args`. */
  datatype Entry = Entry(create: bool, proxy: nat, key: Option<nat>, uses: set<nat>, args: seq<Byte>)

  datatype Op = Record(e: Entry) | Use(uses: set<nat>) | Destroy(proxy: nat)

  /** The driver object behind a handle: what creating and modifying it does. */
  datatype Driver<!S(!new)> = Driver(made: Entry -> S, changed: (S, Entry) -> S) {
    /** What an op key promises: same-key calls overwrite, different-key calls are independent. */
    ghost predicate KeysAreSound() {
      && (forall s: S, a: Entry, b: Entry :: a.key.Some? && a.key == b.key ==> changed(changed(s, a), b) == changed(s, b))
      && (forall s: S, a: Entry, b: Entry :: a.key.Some? && b.key.Some? && a.key != b.key ==>
            changed(changed(s, a), b) == changed(changed(s, b), a))
    }
  }

  /** For tables compared without the driver objects behind them. */
  ghost function Plain(): Driver<()> { Driver((e: Entry) => (), (u: (), e: Entry) => ()) }

  lemma PlainIsSound()
    ensures Plain().KeysAreSound()
  {
  }

  ghost function Of(proxy: nat): Entry -> bool { (e: Entry) => e.proxy == proxy }
  ghost function NotOf(proxy: nat): Entry -> bool { (e: Entry) => e.proxy != proxy }
  ghost function NotKey(proxy: nat, key: nat): Entry -> bool { (e: Entry) => !(e.proxy == proxy && e.key == Some(key)) }

  /** The log after `HandleManager::insert_args`: same-key payloads of the handle are replaced. */
  ghost function Recorded(log: seq<Entry>, e: Entry): seq<Entry> {
    (match e.key
     case None => log
     case Some(k) => Filter(log, NotKey(e.proxy, k))) + [e]
  }

  /** The handle table and the driver objects it stands for. */
  datatype State<!S> = State(log: seq<Entry>, live: set<nat>, objects: map<nat, S>) | Panicked

  ghost function Start<S>(): State<S> { State([], {}, map[]) }

  ghost predicate Resolves(uses: set<nat>, live: set<nat>) { uses <= live + {0} }

  /** Keyed and unkeyed payloads of one handle never mix. */
  ghost predicate SameKind(log: seq<Entry>, e: Entry) {
    forall i :: 0 <= i < |log| && log[i].proxy == e.proxy ==> log[i].key.Some? == e.key.Some?
  }

  /** One dispatched call. Looking up a proxy that is not in the table panics; proxy 0 is null. */
  ghost function Step<S(!new)>(d: Driver<S>, s: State<S>, op: Op): State<S> {
    if s.Panicked? then s else match op
      case Use(uses) => if Resolves(uses, s.live) then s else Panicked
      case Destroy(p) =>
        if p == 0 then s
        else if p !in s.live then Panicked
        else State(Filter(s.log, NotOf(p)), s.live - {p}, s.objects - {p})
      case Record(e) =>
        if !Resolves(e.uses, s.live) then Panicked
        else if e.create then
          State(Filter(s.log, NotOf(e.proxy)) + [e], s.live + {e.proxy}, s.objects[e.proxy := d.made(e)])
        else if e.proxy !in s.live || e.proxy !in s.objects || !SameKind(s.log, e) then Panicked
        else State(Recorded(s.log, e), s.live, s.objects[e.proxy := d.changed(s.objects[e.proxy], e)])
  }

  ghost function Run<S(!new)>(d: Driver<S>, s: State<S>, ops: seq<Op>): State<S> {
    if ops == [] then s else Step(d, Run(d, s, ops[..|ops| - 1]), ops[|ops| - 1])
  }

  /** Replaying a log: each record is dispatched again, in order, into an empty table. */
  ghost function Replay<S(!new)>(d: Driver<S>, log: seq<Entry>): State<S> {
    if log == [] then Start() else Step(d, Replay(d, log[..|log| - 1]), Record(log[|log| - 1]))
  }

  /** State of a driver object after its create and modify calls. */
  ghost function Object<S(!new)>(d: Driver<S>, calls: seq<Entry>): S
    requires calls != []
  {
    if |calls| == 1 then d.made(calls[0]) else d.changed(Object(d, calls[..|calls| - 1]), calls[|calls| - 1])
  }

  // ---------------------------------------------------------------- compaction

  /** Last writer wins: dropping earlier calls with the same key changes nothing the next call with
      that key leaves behind. */
  lemma {:induction false} CompactionIsSound<S(!new)>(d: Driver<S>, calls: seq<Entry>, e: Entry)
    requires d.KeysAreSound() && calls != [] && e.key.Some?
    requires calls[0].key != e.key
    requires forall c :: c in calls ==> c.proxy == e.proxy && c.key.Some?
    ensures var kept := Filter(calls, NotKey(e.proxy, e.key.value));
            kept != [] && d.changed(Object(d, kept), e) == d.changed(Object(d, calls), e)
  {
    var keep := NotKey(e.proxy, e.key.value);
    var front, last := calls[..|calls| - 1], calls[|calls| - 1];
    if |calls| == 1 {
      assert calls == front + [last];
      FilterAll(calls, keep);
    } else {
      CompactionIsSound(d, front, e);
      var kept := Filter(front, keep);
      if last.key == e.key {
        assert d.changed(d.changed(Object(d, front), last), e) == d.changed(Object(d, front), e);
      } else {
        assert (kept + [last])[..|kept|] == kept;
        assert d.changed(d.changed(Object(d, front), last), e) == d.changed(d.changed(Object(d, front), e), last);
        assert d.changed(d.changed(Object(d, kept), last), e) == d.changed(d.changed(Object(d, kept), e), last);
      }
    }
  }

  // ---------------------------------------------------------------- the invariant of the table

  ghost function Created(log: seq<Entry>): set<nat> {
    set e | e in log && e.create :: e.proxy
  }

  /** `e` may follow `front` in a log that makes the handles `made`. */
  ghost predicate MayFollow(front: seq<Entry>, e: Entry, made: set<nat>) {
    && (if e.create then forall f :: f in front ==> f.proxy != e.proxy
        else
          && (e.proxy in made ==> e.proxy in Created(front))
          && SameKind(front, e)
          && (e.key.Some? ==> forall f :: f in front ==> !(f.proxy == e.proxy && f.key == e.key)))
    && e.uses * made <= Created(front)
  }

  /** Every handle the log makes is created before it is modified or used, and no key occurs twice. */
  ghost predicate WellOrdered(log: seq<Entry>, made: set<nat>) {
    log == [] || (WellOrdered(log[..|log| - 1], made) && MayFollow(log[..|log| - 1], log[|log| - 1], made))
  }

  /** Proxies are numbered by the client's counter and are never reused. */
  ghost predicate Numbered(log: seq<Entry>, live: set<nat>, next: nat) {
    && 0 < next
    && (forall p :: p in live ==> 0 < p < next)
    && (forall e :: e in log ==> e.proxy in live && forall u :: u in e.uses ==> u < next)
  }

  /** The driver objects of the handles the log makes are what their logged calls give. */
  ghost predicate ObjectsMatch<S(!new)>(d: Driver<S>, log: seq<Entry>, made: set<nat>, objects: map<nat, S>) {
    && made <= objects.Keys
    && forall p :: p in made ==> Filter(log, Of(p)) != [] && objects[p] == Object(d, Filter(log, Of(p)))
  }

  /** Every live handle has a record, if only a modification that replaced its creation. */
  ghost predicate Represented(log: seq<Entry>, live: set<nat>) {
    forall p :: p in live ==> exists e :: e in log && e.proxy == p
  }

  ghost predicate TableInv<S(!new)>(d: Driver<S>, s: State<S>, next: nat) {
    && s.State?
    && Created(s.log) <= s.live == s.objects.Keys
    && WellOrdered(s.log, Created(s.log))
    && Numbered(s.log, s.live, next)
    && Represented(s.log, s.live)
    && ObjectsMatch(d, s.log, Created(s.log), s.objects)
  }

  /** What a client guarantees: a created proxy is a number above all before it. */
  ghost predicate Lawful(op: Op, next: nat) { op.Record? && op.e.create ==> next <= op.e.proxy }

  /** The first number above all given out so far. */
  ghost function NextMark(next: nat, op: Op): nat { if op.Record? && op.e.create then op.e.proxy + 1 else next }

  lemma MayFollowKept(front: seq<Entry>, kept: seq<Entry>, e: Entry, made: set<nat>, made': set<nat>)
    requires MayFollow(front, e, made) && made' <= made
    requires forall f :: f in kept ==> f in front
    requires forall f :: f in front && f.create && f.proxy in made' ==> f in kept
    ensures MayFollow(kept, e, made')
  {
    assert forall p :: p in Created(front) && p in made' ==> p in Created(kept);
    if !e.create {
      assert forall i :: 0 <= i < |kept| ==> kept[i] in front;
      assert forall f :: f in front && f.proxy == e.proxy ==> f.key.Some? == e.key.Some?;
    }
  }

  lemma {:induction false} OrderedFilter(log: seq<Entry>, made: set<nat>, keep: Entry -> bool, made': set<nat>)
    requires WellOrdered(log, made) && made' <= made
    requires forall f :: f in log && f.proxy in made' && f.create ==> keep(f)
    ensures WellOrdered(Filter(log, keep), made')
  {
    hide MayFollow;
    if log != [] {
      var front, e := log[..|log| - 1], log[|log| - 1];
      assert e in log && forall f :: f in front ==> f in log;
      OrderedFilter(front, made, keep, made');
      if keep(e) {
        FilterContents(front, keep);
        var kept := Filter(front, keep);
        MayFollowKept(front, kept, e, made, made');
        assert (kept + [e])[..|kept|] == kept;
      }
    }
  }

  lemma {:induction false} FirstIsCreate(log: seq<Entry>, made: set<nat>, p: nat)
    requires WellOrdered(log, made) && p in made
    ensures var calls := Filter(log, Of(p)); calls != [] ==> calls[0].create && calls[0] in log
  {
    if log != [] {
      var front, e := log[..|log| - 1], log[|log| - 1];
      FirstIsCreate(front, made, p);
      FilterContents(front, Of(p));
    }
  }

  lemma AppendOrdered(log: seq<Entry>, live: set<nat>, e: Entry)
    requires WellOrdered(log, live) && MayFollow(log, e, live)
    ensures WellOrdered(log + [e], live)
  {
    assert (log + [e])[..|log|] == log;
  }

  lemma CreatedAppend(log: seq<Entry>, e: Entry)
    ensures Created(log + [e]) == if e.create then Created(log) + {e.proxy} else Created(log)
  {
    assert forall f :: f in log + [e] <==> f in log || f == e;
  }

  lemma {:induction false} LiveIrrelevant(log: seq<Entry>, live: set<nat>, unused: nat)
    requires WellOrdered(log, live) && forall e :: e in log ==> unused !in e.uses && e.proxy != unused
    ensures WellOrdered(log, live + {unused})
  {
    if log != [] {
      LiveIrrelevant(log[..|log| - 1], live, unused);
      assert log[|log| - 1] in log;
      assert log[|log| - 1].uses * (live + {unused}) == log[|log| - 1].uses * live;
    }
  }

  // ---------------------------------------------------------------- every call keeps the invariant

  lemma CreateOrdered(log: seq<Entry>, live: set<nat>, e: Entry)
    requires WellOrdered(log, Created(log)) && Created(log) <= live && Numbered(log, live, e.proxy)
    requires e.create && Resolves(e.uses, live)
    ensures Created(log + [e]) == Created(log) + {e.proxy}
    ensures WellOrdered(log + [e], Created(log + [e]))
    ensures Numbered(log + [e], live + {e.proxy}, e.proxy + 1)
  {
    CreatedAppend(log, e);
    var made := Created(log);
    LiveIrrelevant(log, made, e.proxy);
    AppendOrdered(log, made + {e.proxy}, e);
  }

  lemma AppendCreate<S(!new)>(d: Driver<S>, front: seq<Entry>, live: set<nat>, objects: map<nat, S>, e: Entry)
    requires ObjectsMatch(d, front, live, objects) && forall f :: f in front ==> f.proxy != e.proxy
    ensures Filter(front, NotOf(e.proxy)) == front
    ensures ObjectsMatch(d, front + [e], live + {e.proxy}, objects[e.proxy := d.made(e)])
  {
    hide Filter;
    FilterAll(front, NotOf(e.proxy));
    FilterNone(front, Of(e.proxy));
    forall q | q in live + {e.proxy}
      ensures Filter(front + [e], Of(q)) == if q == e.proxy then [e] else Filter(front, Of(q))
    {
      FilterAppend(front, e, Of(q));
    }
  }

  lemma RepresentedAppend(log: seq<Entry>, live: set<nat>, kept: seq<Entry>, e: Entry, live': set<nat>)
    requires Represented(log, live) && live' <= live + {e.proxy}
    requires forall f :: f in log && f.proxy != e.proxy && f.proxy in live' ==> f in kept
    ensures Represented(kept + [e], live')
  {
    forall p | p in live' ensures exists f :: f in kept + [e] && f.proxy == p {
      if p == e.proxy {
        assert e in kept + [e];
      } else {
        var f :| f in log && f.proxy == p;
        assert f in kept + [e];
      }
    }
  }

  lemma CreateKeeps<S(!new)>(d: Driver<S>, s: State<S>, e: Entry)
    requires TableInv(d, s, e.proxy) && e.create && Resolves(e.uses, s.live)
    ensures TableInv(d, Step(d, s, Record(e)), e.proxy + 1)
  {
    hide WellOrdered, Created, ObjectsMatch, Filter, Represented;
    CreateOrdered(s.log, s.live, e);
    AppendCreate(d, s.log, Created(s.log), s.objects, e);
    RepresentedAppend(s.log, s.live, s.log, e, s.live + {e.proxy});
  }

  lemma DestroyOrdered(log: seq<Entry>, live: set<nat>, p: nat, next: nat)
    requires WellOrdered(log, Created(log)) && Created(log) <= live && Numbered(log, live, next) && Represented(log, live)
    ensures var kept := Filter(log, NotOf(p));
            && Created(kept) == Created(log) - {p} && WellOrdered(kept, Created(kept))
            && Numbered(kept, live - {p}, next) && Represented(kept, live - {p})
  {
    hide WellOrdered;
    var kept := Filter(log, NotOf(p));
    FilterContents(log, NotOf(p));
    assert Created(kept) == Created(log) - {p};
    OrderedFilter(log, Created(log), NotOf(p), Created(log) - {p});
    forall q | q in live - {p} ensures exists e :: e in kept && e.proxy == q {
      var e :| e in log && e.proxy == q;
      assert e in kept;
    }
  }

  lemma DestroyObjects<S(!new)>(d: Driver<S>, log: seq<Entry>, made: set<nat>, objects: map<nat, S>, p: nat)
    requires ObjectsMatch(d, log, made, objects)
    ensures ObjectsMatch(d, Filter(log, NotOf(p)), made - {p}, objects - {p})
  {
    hide Filter;
    forall q | q in made - {p}
      ensures Filter(Filter(log, NotOf(p)), Of(q)) == Filter(log, Of(q))
    {
      FilterFilter(log, NotOf(p), Of(q), Of(q));
    }
  }

  lemma DestroyKeeps<S(!new)>(d: Driver<S>, s: State<S>, p: nat, next: nat)
    requires TableInv(d, s, next) && p in s.live && p != 0
    ensures TableInv(d, Step(d, s, Destroy(p)), next)
  {
    hide WellOrdered, ObjectsMatch, Filter, Created, Represented, Numbered;
    DestroyOrdered(s.log, s.live, p, next);
    DestroyObjects(d, s.log, Created(s.log), s.objects, p);
  }

  /** What stays in the log when a modification is recorded. */
  ghost function Surviving(log: seq<Entry>, e: Entry): seq<Entry> {
    match e.key case None => log case Some(k) => Filter(log, NotKey(e.proxy, k))
  }

  /** The modification keeps the creation it follows, or replaces it and the log no longer makes the
      handle; either way what stays is well ordered. */
  lemma SurvivingOrdered(log: seq<Entry>, live: set<nat>, e: Entry)
    requires WellOrdered(log, Created(log)) && Created(log) <= live && SameKind(log, e)
    requires !e.create && e.proxy in live && Resolves(e.uses, live) && 0 !in live
    ensures var kept := Surviving(log, e);
            && Created(kept) <= Created(log) && Created(log) <= Created(kept) + {e.proxy}
            && WellOrdered(kept, Created(kept)) && MayFollow(kept, e, Created(kept))
            && (forall f :: f in kept ==> f in log)
            && (forall f :: f in log && f.proxy != e.proxy ==> f in kept)
  {
    var kept := Surviving(log, e);
    if e.key.Some? {
      var keep := NotKey(e.proxy, e.key.value);
      FilterContents(log, keep);
      OnlyCreation(log, Created(log));
      OrderedFilter(log, Created(log), keep, Created(kept));
    }
    assert SameKind(kept, e) by {
      assert forall i :: 0 <= i < |kept| ==> kept[i] in kept;
      assert forall f :: f in log && f.proxy == e.proxy ==> f.key.Some? == e.key.Some?;
    }
  }

  /** A proxy has one creation in the log. */
  lemma {:induction false} OnlyCreation(log: seq<Entry>, made: set<nat>)
    requires WellOrdered(log, made)
    ensures forall f, g :: f in log && g in log && f.create && g.create && f.proxy == g.proxy ==> f == g
  {
    if log != [] {
      OnlyCreation(log[..|log| - 1], made);
      assert forall f :: f in log <==> f in log[..|log| - 1] || f == log[|log| - 1];
    }
  }

  lemma SurvivingObjects<S(!new)>(d: Driver<S>, s: State<S>, e: Entry, next: nat)
    requires d.KeysAreSound() && TableInv(d, s, next)
    requires !e.create && e.proxy in s.live && SameKind(s.log, e)
    ensures var log := Surviving(s.log, e);
            && (forall q :: q != e.proxy ==> Filter(log, Of(q)) == Filter(s.log, Of(q)))
            && (e.proxy in Created(log) ==>
                  && Filter(log, Of(e.proxy)) != []
                  && d.changed(Object(d, Filter(log, Of(e.proxy))), e) == d.changed(s.objects[e.proxy], e))
  {
    if e.key.Some? {
      var p, keep := e.proxy, NotKey(e.proxy, e.key.value);
      var log := Filter(s.log, keep);
      forall q | q != p
        ensures Filter(log, Of(q)) == Filter(s.log, Of(q))
      {
        FilterFilter(s.log, keep, Of(q), Of(q));
      }
      FilterContents(s.log, keep);
      hide WellOrdered, Numbered, Represented;
      if p in Created(log) {
        var both := (f: Entry) => keep(f) && Of(p)(f);
        FilterFilter(s.log, keep, Of(p), both);
        FilterFilter(s.log, Of(p), keep, both);
        var calls := Filter(s.log, Of(p));
        FirstIsCreate(s.log, Created(s.log), p);
        FilterContents(s.log, Of(p));
        OnlyCreation(s.log, Created(s.log));
        CompactionIsSound(d, calls, e);
      }
    }
  }

  lemma ModifyObjects<S(!new)>(d: Driver<S>, s: State<S>, e: Entry, next: nat)
    requires d.KeysAreSound() && TableInv(d, s, next)
    requires !e.create && e.proxy in s.live && SameKind(s.log, e)
    requires Created(Surviving(s.log, e)) <= Created(s.log)
    ensures ObjectsMatch(d, Surviving(s.log, e) + [e], Created(Surviving(s.log, e)),
                         s.objects[e.proxy := d.changed(s.objects[e.proxy], e)])
  {
    hide Driver.KeysAreSound, WellOrdered, Created, Numbered, Filter, Surviving, Represented;
    var log := Surviving(s.log, e);
    SurvivingObjects(d, s, e, next);
    forall q
      ensures Filter(log + [e], Of(q)) == if q == e.proxy then Filter(log, Of(q)) + [e] else Filter(log, Of(q))
    {
      FilterAppend(log, e, Of(q));
    }
    var calls := Filter(log, Of(e.proxy));
    assert (calls + [e])[..|calls|] == calls;
  }

  lemma ModifyKeeps<S(!new)>(d: Driver<S>, s: State<S>, e: Entry, next: nat)
    requires d.KeysAreSound() && TableInv(d, s, next)
    requires !e.create && e.proxy in s.live && Resolves(e.uses, s.live) && SameKind(s.log, e)
    ensures TableInv(d, Step(d, s, Record(e)), next)
  {
    hide Driver.KeysAreSound, WellOrdered, MayFollow, ObjectsMatch, Numbered, Created, Filter, SameKind, Represented;
    var log := Surviving(s.log, e);
    assert 0 !in s.live by { NumberedRecords(s.log, log, s.live, e, next); }
    SurvivingOrdered(s.log, s.live, e);
    NumberedRecords(s.log, log, s.live, e, next);
    ModifyObjects(d, s, e, next);
    AppendOrdered(log, Created(log), e);
    CreatedAppend(log, e);
    RepresentedAppend(s.log, s.live, log, e, s.live);
  }

  lemma NumberedRecords(log: seq<Entry>, kept: seq<Entry>, live: set<nat>, e: Entry, next: nat)
    requires Numbered(log, live, next)
    ensures 0 !in live
    ensures (forall f :: f in kept ==> f in log) && e.proxy in live && Resolves(e.uses, live) ==> Numbered(kept + [e], live, next)
  {
    assert forall f :: f in kept + [e] ==> f in kept || f == e;
  }

  lemma NumberedAbove<S(!new)>(d: Driver<S>, s: State<S>, next: nat, next': nat)
    requires TableInv(d, s, next) && next <= next'
    ensures TableInv(d, s, next')
  {
    hide WellOrdered, Created, ObjectsMatch, Represented;
  }

  lemma StepKeeps<S(!new)>(d: Driver<S>, s: State<S>, op: Op, next: nat)
    requires d.KeysAreSound() && TableInv(d, s, next) && Lawful(op, next)
    ensures var s' := Step(d, s, op);
            s'.State? ==> TableInv(d, s', NextMark(next, op))
  {
    match op
    case Use(_) =>
    case Destroy(p) => if p != 0 && p in s.live { DestroyKeeps(d, s, p, next); }
    case Record(e) =>
      if Resolves(e.uses, s.live) {
        if e.create { NumberedAbove(d, s, next, e.proxy); CreateKeeps(d, s, e); }
        else if e.proxy in s.live && SameKind(s.log, e) { ModifyKeeps(d, s, e, next); }
      }
  }

  // ---------------------------------------------------------------- whole histories

  ghost function Mark(ops: seq<Op>): nat {
    if ops == [] then 1 else NextMark(Mark(ops[..|ops| - 1]), ops[|ops| - 1])
  }

  /** A history the server got through without panicking, by a lawful client. */
  ghost predicate LawfulHistory<S(!new)>(d: Driver<S>, ops: seq<Op>) {
    && Run(d, Start(), ops).State?
    && (ops != [] ==>
          var before := ops[..|ops| - 1];
          LawfulHistory(d, before) && Lawful(ops[|ops| - 1], Mark(before)))
  }

  lemma StartKeeps<S(!new)>(d: Driver<S>)
    ensures TableInv(d, Start(), 1)
  {
  }

  lemma {:induction false} HistoryKeeps<S(!new)>(d: Driver<S>, ops: seq<Op>)
    requires d.KeysAreSound() && LawfulHistory(d, ops)
    ensures TableInv(d, Run(d, Start(), ops), Mark(ops))
  {
    hide Driver.KeysAreSound, TableInv, Step, Lawful;
    if ops == [] {
      StartKeeps(d);
    } else {
      var before := ops[..|ops| - 1];
      HistoryKeeps(d, before);
      StepKeeps(d, Run(d, Start(), before), ops[|ops| - 1], Mark(before));
    }
  }

  /** Every surviving record can still resolve the handles it used: a scan of the table. */
  ghost predicate UsesAreLive(log: seq<Entry>, live: set<nat>) {
    forall e :: e in log ==> Resolves(e.uses, live)
  }

  /** Every live handle's creation is in the log: a scan of the table. */
  ghost predicate Replayable(log: seq<Entry>, live: set<nat>) { UsesAreLive(log, live) && live == Created(log) }

  lemma {:induction false} ReplayRebuilds<S(!new)>(d: Driver<S>, log: seq<Entry>, live: set<nat>)
    requires WellOrdered(log, live) && UsesAreLive(log, live) && 0 !in live && Created(log) <= live
    requires forall e :: e in log ==> e.proxy in live
    ensures var r := Replay(d, log);
            && r.State? && r.log == log && r.live == Created(log) == r.objects.Keys
            && ObjectsMatch(d, log, r.live, r.objects)
  {
    if log != [] {
      hide ObjectsMatch, Created, Step;
      var front, e := log[..|log| - 1], log[|log| - 1];
      assert log == front + [e];
      CreatedAppend(front, e);
      assert e in log && forall f :: f in front ==> f in log;
      ReplayRebuilds(d, front, live);
      ReplayStep(d, Replay(d, front), e, live);
    }
  }

  /** Dispatching the next record extends the rebuilt table by exactly that record. */
  lemma ReplayStep<S(!new)>(d: Driver<S>, r: State<S>, e: Entry, live: set<nat>)
    requires r.State? && r.live == Created(r.log) == r.objects.Keys && r.live <= live && 0 !in live && e.proxy in live
    requires ObjectsMatch(d, r.log, r.live, r.objects)
    requires MayFollow(r.log, e, live) && Resolves(e.uses, live)
    ensures var r' := Step(d, r, Record(e));
            && r'.State? && r'.log == r.log + [e] && ObjectsMatch(d, r'.log, r'.live, r'.objects)
            && r'.live == (if e.create then r.live + {e.proxy} else r.live) && r'.objects.Keys == r'.live
  {
    assert Resolves(e.uses, r.live);
    if e.create {
      AppendCreate(d, r.log, r.live, r.objects, e);
    } else {
      AppendModify(d, r.log, r.live, r.objects, e);
    }
  }

  lemma AppendModify<S(!new)>(d: Driver<S>, front: seq<Entry>, live: set<nat>, objects: map<nat, S>, e: Entry)
    requires ObjectsMatch(d, front, live, objects) && e.proxy in live
    requires e.key.Some? ==> forall f :: f in front ==> !(f.proxy == e.proxy && f.key == e.key)
    ensures Recorded(front, e) == front + [e]
    ensures ObjectsMatch(d, front + [e], live, objects[e.proxy := d.changed(objects[e.proxy], e)])
  {
    hide Filter;
    if e.key.Some? { FilterAll(front, NotKey(e.proxy, e.key.value)); }
    var calls := Filter(front, Of(e.proxy));
    assert (calls + [e])[..|calls|] == calls;
    forall q | q in live
      ensures Filter(front + [e], Of(q)) == if q == e.proxy then calls + [e] else Filter(front, Of(q))
    {
      FilterAppend(front, e, Of(q));
    }
  }

  /** A replay that gets through has resolved every use, and found every handle it modifies, among
      the handles it created. */
  lemma {:induction false} ReplayNeedsUses<S(!new)>(d: Driver<S>, log: seq<Entry>)
    requires Replay(d, log).State?
    ensures Replay(d, log).live <= Created(log) && UsesAreLive(log, Created(log))
    ensures forall e :: e in log ==> e.proxy in Created(log)
  {
    if log != [] {
      var front, e := log[..|log| - 1], log[|log| - 1];
      assert log == front + [e];
      ReplayNeedsUses(d, front);
      CreatedAppend(front, e);
      assert forall f :: f in log ==> f in front || f == e;
    }
  }

  /** Main result. After any history of calls with fresh proxies, replaying the compacted log from an
      empty table succeeds if and only if no surviving record uses a handle that has been destroyed
      and every live handle's creation survives; and then it rebuilds exactly the live proxies, the
      same driver objects, and a table with the same log. */
  lemma ReplayIsFaithful<S(!new)>(d: Driver<S>, ops: seq<Op>)
    requires d.KeysAreSound() && LawfulHistory(d, ops)
    ensures var s := Run(d, Start(), ops); var r := Replay(d, s.log);
            && (r.State? <==> Replayable(s.log, s.live))
            && (r.State? ==> r == s)
  {
    hide Driver.KeysAreSound, WellOrdered, Filter, Replay, Run, LawfulHistory;
    HistoryKeeps(d, ops);
    var s := Run(d, Start(), ops);
    if Replayable(s.log, s.live) { ReplayRebuilds(d, s.log, s.live); }
    if Replay(d, s.log).State? { ReplayNeedsUses(d, s.log); }
  }

  lemma RunAppend<S(!new)>(d: Driver<S>, ops: seq<Op>, op: Op)
    ensures Run(d, Start(), ops + [op]) == Step(d, Run(d, Start(), ops), op)
    ensures Mark(ops + [op]) == NextMark(Mark(ops), op)
    ensures LawfulHistory(d, ops + [op]) <==>
            && LawfulHistory(d, ops) && Step(d, Run(d, Start(), ops), op).State?
            && Lawful(op, Mark(ops))
  {
    hide Step, Lawful;
    assert (ops + [op])[..|ops|] == ops;
  }

  lemma Unfiltered(log: seq<Entry>, e: Entry, keep: Entry -> bool)
    requires forall f :: f in log ==> keep(f)
    ensures Filter([e] + log, keep) == (if keep(e) then [e] else []) + log
  {
    if log == [] {
      assert [e] + log == [] + [e];
      FilterAppend([], e, keep);
    } else {
      var front, last := log[..|log| - 1], log[|log| - 1];
      Unfiltered(front, e, keep);
      assert [e] + log == ([e] + front) + [last];
      FilterAppend([e] + front, last, keep);
      assert front + [last] == log;
    }
  }

  const STREAM_MADE: Entry := Entry(true, 1, None, {}, [])
  const LIBRARY_MADE: Entry := Entry(true, 2, None, {}, [])
  const STREAM_BOUND: Entry := Entry(false, 2, None, {1}, [])

  /** A stream, a library handle, and the binding of the one to the other. */
  lemma BoundHistory<S(!new)>(d: Driver<S>) returns (ops: seq<Op>)
    ensures LawfulHistory(d, ops) && Run(d, Start(), ops).State?
    ensures Run(d, Start(), ops).log == [STREAM_MADE] + [LIBRARY_MADE, STREAM_BOUND] && 1 in Run(d, Start(), ops).live
  {
    hide Driver.KeysAreSound, Run, LawfulHistory, Replay, Mark, Filter;
    ops := EmptyHistory(d);
    RunAppend(d, ops, Record(STREAM_MADE));
    FilterAll([], NotOf(1));
    ops := ops + [Record(STREAM_MADE)];
    assert Run(d, Start(), ops).log == [STREAM_MADE];
    RunAppend(d, ops, Record(LIBRARY_MADE));
    FilterAll([STREAM_MADE], NotOf(2));
    ops := ops + [Record(LIBRARY_MADE)];
    assert Run(d, Start(), ops).log == [STREAM_MADE, LIBRARY_MADE];
    RunAppend(d, ops, Record(STREAM_BOUND));
    ops := ops + [Record(STREAM_BOUND)];
  }

  /** The replay condition can fail: a library handle bound to a stream that is destroyed later keeps
      the binding in its log, and replaying it looks up a stream that is not there. */
  lemma DestroyedUseBreaksReplay<S(!new)>(d: Driver<S>) returns (ops: seq<Op>)
    requires d.KeysAreSound()
    ensures LawfulHistory(d, ops) && Replay(d, Run(d, Start(), ops).log).Panicked?
  {
    hide Driver.KeysAreSound, Run, LawfulHistory, Replay, Mark, Filter;
    ops := BoundHistory(d);
    RunAppend(d, ops, Destroy(1));
    Unfiltered([LIBRARY_MADE, STREAM_BOUND], STREAM_MADE, NotOf(1));
    ops := ops + [Destroy(1)];
    assert STREAM_BOUND in Run(d, Start(), ops).log && 1 !in Run(d, Start(), ops).live;
    ReplayIsFaithful(d, ops);
  }

  lemma EmptyHistory<S(!new)>(d: Driver<S>) returns (ops: seq<Op>)
    ensures ops == [] && LawfulHistory(d, ops) && Run(d, Start(), ops) == Start() && Mark(ops) == 1
  {
    ops := [];
  }

  /** And the other half: a modification under the key its handle was created with replaces the
      creation itself, and the log no longer makes the handle. */
  lemma CreationKeyReuseBreaksReplay<S(!new)>(d: Driver<S>)
    ensures var ops := [Record(Entry(true, 1, Some(0), {}, [])), Record(Entry(false, 1, Some(0), {}, []))];
            LawfulHistory(d, ops) && Replay(d, Run(d, Start(), ops).log).Panicked?
  {
    hide Run, LawfulHistory, Replay, Mark, Filter, Driver.KeysAreSound;
    var create, change := Entry(true, 1, Some(0), {}, []), Entry(false, 1, Some(0), {}, []);
    var none := EmptyHistory(d);
    RunAppend(d, none, Record(create));
    FilterAll([], NotOf(1));
    var made := none + [Record(create)];
    var s := Run(d, Start(), made);
    assert s.log == [create];
    RunAppend(d, made, Record(change));
    FilterNone([create], NotKey(1, 0));
    var t := Run(d, Start(), made + [Record(change)]);
    assert t.log == [change];
    OnlyChange(d, change);
    assert made + [Record(change)] == [Record(create), Record(change)];
  }

  lemma OnlyChange<S(!new)>(d: Driver<S>, e: Entry)
    requires !e.create
    ensures Replay(d, [e]).Panicked?
  {
    assert [e][..0] == [];
  }
}
