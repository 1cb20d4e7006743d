/** The handle table of a worker thread: per-handle payloads, a global clock, and the serialization
    that collects all payloads and sorts them by timestamp. */
module HandleManager {
  import opened Bytes
  import opened Filters
  import opened Options
  import Log = HandleLog

  datatype Payload = Payload(timestamp: nat, args: seq<Byte>)

  datatype Payloads = Empty | Vec(items: seq<Payload>) | Map(entries: map<nat, Payload>)

  datatype Handle = Handle(value: nat, payloads: Payloads)

  /** A log entry with the time it was recorded. */
  datatype Stamped = Stamped(time: nat, e: Log.Entry) {
    function Saved(): Payload { Payload(time, e.args) }
  }

  // ---------------------------------------------------------------- sorting by timestamp

  ghost predicate Increasing(xs: seq<Payload>) {
    forall i, j :: 0 <= i < j < |xs| ==> xs[i].timestamp < xs[j].timestamp
  }

  ghost predicate DistinctTimes(xs: seq<Payload>) {
    forall i, j :: 0 <= i < j < |xs| ==> xs[i].timestamp != xs[j].timestamp
  }

  function InsertByTime(xs: seq<Payload>, x: Payload): seq<Payload> {
    if xs == [] || xs[|xs| - 1].timestamp <= x.timestamp then xs + [x]
    else InsertByTime(xs[..|xs| - 1], x) + [xs[|xs| - 1]]
  }

  function SortByTime(xs: seq<Payload>): seq<Payload> {
    if xs == [] then [] else InsertByTime(SortByTime(xs[..|xs| - 1]), xs[|xs| - 1])
  }

  lemma {:induction false} InsertSorted(xs: seq<Payload>, x: Payload)
    requires Increasing(xs) && forall y :: y in xs ==> y.timestamp != x.timestamp
    ensures Increasing(InsertByTime(xs, x))
    ensures forall y :: y in InsertByTime(xs, x) <==> y in xs || y == x
  {
    if xs != [] && xs[|xs| - 1].timestamp > x.timestamp {
      var front := xs[..|xs| - 1];
      InsertSorted(front, x);
      var r := InsertByTime(front, x);
      assert forall i :: 0 <= i < |r| ==> r[i] in r;
      assert forall y :: y in front ==> exists i :: 0 <= i < |front| && xs[i] == y;
    }
  }

  lemma {:induction false} SortSorts(xs: seq<Payload>)
    requires DistinctTimes(xs)
    ensures Increasing(SortByTime(xs))
    ensures forall y :: y in SortByTime(xs) <==> y in xs
  {
    if xs != [] {
      var front, x := xs[..|xs| - 1], xs[|xs| - 1];
      SortSorts(front);
      assert forall y :: y in front ==> exists i :: 0 <= i < |front| && xs[i] == y;
      InsertSorted(SortByTime(front), x);
    }
  }

  /** There is only one way to put a set of payloads in time order. */
  lemma {:induction false} IncreasingUnique(xs: seq<Payload>, ys: seq<Payload>)
    requires Increasing(xs) && Increasing(ys) && forall z :: z in xs <==> z in ys
    ensures xs == ys
  {
    assert ys == [] || ys[0] in ys;
    if xs != [] {
      assert xs[|xs| - 1] in ys;
      assert ys[|ys| - 1] in xs;
      var fx, fy := xs[..|xs| - 1], ys[..|ys| - 1];
      forall z
        ensures z in fx <==> z in fy
      {
        if z in fx { var i :| 0 <= i < |fx| && xs[i] == z; assert z in ys && z != ys[|ys| - 1]; }
        if z in fy { var i :| 0 <= i < |fy| && ys[i] == z; assert z in xs && z != xs[|xs| - 1]; }
      }
      IncreasingUnique(fx, fy);
    }
  }

  function Concat(xs: seq<Payload>): seq<Byte> {
    if xs == [] then [] else Concat(xs[..|xs| - 1]) + xs[|xs| - 1].args
  }

  // ---------------------------------------------------------------- table and log

  ghost predicate Holds(held: Payloads, key: Option<nat>, x: Payload) {
    match held
    case Empty => false
    case Vec(items) => key.None? && x in items
    case Map(entries) => key.Some? && key.value in entries && entries[key.value] == x
  }

  /** Every logged entry sits in its handle's payloads. */
  ghost predicate Stored(handles: map<nat, Handle>, log: seq<Stamped>) {
    forall st :: st in log ==> st.e.proxy in handles && Holds(handles[st.e.proxy].payloads, st.e.key, st.Saved())
  }

  /** Every payload of every handle is in the log. */
  ghost predicate Covered(handles: map<nat, Handle>, log: seq<Stamped>) {
    forall p, key, x :: p in handles && Holds(handles[p].payloads, key, x) ==>
      exists st :: st in log && st.e.proxy == p && st.e.key == key && st.Saved() == x
  }

  ghost predicate Timed(log: seq<Stamped>, clock: nat) {
    && (forall i, j :: 0 <= i < j < |log| ==> log[i].time < log[j].time)
    && (forall i :: 0 <= i < |log| ==> log[i].time < clock)
  }

  ghost predicate PayloadsOk(handles: map<nat, Handle>) {
    forall p :: p in handles ==>
      match handles[p].payloads
      case Empty => true
      case Vec(items) => items != [] && Increasing(items)
      case Map(entries) => entries != map[]
  }

  ghost function Entries(log: seq<Stamped>): seq<Log.Entry> { Mapped(log, (st: Stamped) => st.e) }

  lemma {:induction false} FilterTimed(log: seq<Stamped>, clock: nat, keep: Stamped -> bool)
    requires Timed(log, clock)
    ensures Timed(Filter(log, keep), clock)
  {
    if log != [] {
      var front, last := log[..|log| - 1], log[|log| - 1];
      FilterTimed(front, clock, keep);
      FilterContents(front, keep);
      var kept := Filter(front, keep);
      assert forall i :: 0 <= i < |kept| ==> kept[i] in front;
    }
  }

  ghost function Other(proxy: nat): Stamped -> bool { (st: Stamped) => st.e.proxy != proxy }
  ghost function OtherKey(proxy: nat, key: nat): Stamped -> bool {
    (st: Stamped) => !(st.e.proxy == proxy && st.e.key == Some(key))
  }

  lemma EntriesFilter(log: seq<Stamped>, keep: Log.Entry -> bool, keepStamped: Stamped -> bool)
    requires forall st :: st in log ==> (keepStamped(st) <==> keep(st.e))
    ensures Entries(Filter(log, keepStamped)) == Filter(Entries(log), keep)
  {
    FilterMapped(log, (st: Stamped) => st.e, keep, keepStamped);
  }

  /** `Payloads::insert`: None stands for the panic on mixing keyed and unkeyed payloads. */
  function Added(held: Payloads, key: Option<nat>, x: Payload): Option<Payloads> {
    match (key, held)
    case (None, Empty) => Some(Vec([x]))
    case (None, Vec(items)) => Some(Vec(items + [x]))
    case (Some(k), Empty) => Some(Map(map[k := x]))
    case (Some(k), Map(entries)) => Some(Map(entries[k := x]))
    case (None, Map(_)) => None
    case (Some(_), Vec(_)) => None
  }

  /** Whether the payload kinds clash can be read off the log. */
  lemma KindsAgree(handles: map<nat, Handle>, log: seq<Stamped>, e: Log.Entry, x: Payload)
    requires Stored(handles, log) && Covered(handles, log) && PayloadsOk(handles) && e.proxy in handles
    ensures Added(handles[e.proxy].payloads, e.key, x).Some? <==> Log.SameKind(Entries(log), e)
  {
    var held := handles[e.proxy].payloads;
    assert forall i :: 0 <= i < |log| ==> log[i] in log && Entries(log)[i] == log[i].e;
    match held
    case Empty =>
    case Vec(items) =>
      assert Holds(held, None, items[0]);
      var st :| st in log && st.e.proxy == e.proxy && st.e.key.None?;
      var i :| 0 <= i < |log| && log[i] == st;
      assert Entries(log)[i].key.None?;
    case Map(entries) =>
      var k :| k in entries;
      assert Holds(held, Some(k), entries[k]);
      var st :| st in log && st.e.proxy == e.proxy && st.e.key == Some(k);
      var i :| 0 <= i < |log| && log[i] == st;
      assert Entries(log)[i].key.Some?;
  }

  /** The log without what the new payload replaces. */
  ghost function Kept(log: seq<Stamped>, e: Log.Entry): seq<Stamped> {
    match e.key case None => log case Some(k) => Filter(log, OtherKey(e.proxy, k))
  }

  lemma KeptContents(log: seq<Stamped>, e: Log.Entry)
    ensures forall st :: st in Kept(log, e) <==> st in log && !(e.key.Some? && st.e.proxy == e.proxy && st.e.key == e.key)
  {
    if e.key.Some? { FilterContents(log, OtherKey(e.proxy, e.key.value)); }
  }

  lemma AddedHolds(held: Payloads, key: Option<nat>, x: Payload)
    requires Added(held, key, x).Some?
    ensures forall k, y :: Holds(Added(held, key, x).value, k, y) <==>
              (k == key && y == x) || (Holds(held, k, y) && !(k.Some? && k == key))
  {
  }

  lemma AddedInOrder(handles: map<nat, Handle>, log: seq<Stamped>, e: Log.Entry, clock: nat)
    requires Covered(handles, log) && Timed(log, clock) && PayloadsOk(handles)
    requires e.proxy in handles && Added(handles[e.proxy].payloads, e.key, Payload(clock, e.args)).Some?
    ensures var held := Added(handles[e.proxy].payloads, e.key, Payload(clock, e.args)).value;
            PayloadsOk(handles[e.proxy := handles[e.proxy].(payloads := held)])
  {
    var was := handles[e.proxy].payloads;
    if was.Vec? {
      assert forall i :: 0 <= i < |was.items| ==> Holds(was, None, was.items[i]);
      assert forall i :: 0 <= i < |log| ==> log[i].time < clock;
      assert Increasing(was.items + [Payload(clock, e.args)]);
    }
    if e.key.Some? {
      var held := Added(was, e.key, Payload(clock, e.args)).value;
      assert e.key.value in held.entries;
    }
  }

  lemma AddedAgrees(handles: map<nat, Handle>, log: seq<Stamped>, e: Log.Entry, clock: nat)
    requires Stored(handles, log) && Covered(handles, log)
    requires e.proxy in handles && Added(handles[e.proxy].payloads, e.key, Payload(clock, e.args)).Some?
    ensures var held := Added(handles[e.proxy].payloads, e.key, Payload(clock, e.args)).value;
            var handles' := handles[e.proxy := handles[e.proxy].(payloads := held)];
            var log' := Kept(log, e) + [Stamped(clock, e)];
            Stored(handles', log') && Covered(handles', log')
  {
    hide Holds, Added, Kept;
    var x, st' := Payload(clock, e.args), Stamped(clock, e);
    var held := Added(handles[e.proxy].payloads, e.key, x).value;
    var handles' := handles[e.proxy := handles[e.proxy].(payloads := held)];
    var log' := Kept(log, e) + [st'];
    KeptContents(log, e);
    AddedHolds(handles[e.proxy].payloads, e.key, x);
    assert forall st :: st in log' <==> st in Kept(log, e) || st == st';
    forall p, key, y | p in handles' && Holds(handles'[p].payloads, key, y)
      ensures exists st :: st in log' && st.e.proxy == p && st.e.key == key && st.Saved() == y
    {
      if p == e.proxy && key == e.key && y == x {
        assert st' in log';
      } else {
        var st :| st in log && st.e.proxy == p && st.e.key == key && st.Saved() == y;
        assert st in log';
      }
    }
  }

  lemma RemovedAgrees(handles: map<nat, Handle>, log: seq<Stamped>, proxy: nat, handles': map<nat, Handle>)
    requires Stored(handles, log) && Covered(handles, log) && PayloadsOk(handles)
    requires forall p :: p in handles' ==> (p == proxy && handles'[p].payloads.Empty?) || (p != proxy && p in handles && handles'[p] == handles[p])
    requires forall p :: p in handles && p != proxy ==> p in handles'
    ensures var log' := Filter(log, Other(proxy));
            Stored(handles', log') && Covered(handles', log') && PayloadsOk(handles')
  {
    FilterContents(log, Other(proxy));
  }

  // ---------------------------------------------------------------- serialization

  ghost function LogBytes(log: seq<Log.Entry>): seq<Byte> {
    if log == [] then [] else LogBytes(log[..|log| - 1]) + log[|log| - 1].args
  }

  ghost predicate HeldBy(handles: map<nat, Handle>, proxies: set<nat>, x: Payload) {
    exists p, key :: p in proxies && p in handles && Holds(handles[p].payloads, key, x)
  }

  /** `refs` lists every payload of these handles once. */
  ghost predicate Collected(handles: map<nat, Handle>, proxies: set<nat>, refs: seq<Payload>) {
    DistinctTimes(refs) && forall x :: x in refs <==> HeldBy(handles, proxies, x)
  }

  ghost predicate TimesDiffer(held: Payloads) {
    match held
    case Empty => true
    case Vec(items) => Increasing(items)
    case Map(entries) => forall j, k :: j in entries && k in entries && j != k ==> entries[j].timestamp != entries[k].timestamp
  }

  lemma SameTimeSameEntry(log: seq<Stamped>, clock: nat, a: Stamped, b: Stamped)
    requires Timed(log, clock) && a in log && b in log && a.time == b.time
    ensures a == b
  {
    var i :| 0 <= i < |log| && log[i] == a;
    var j :| 0 <= j < |log| && log[j] == b;
    assert i == j;
  }

  lemma HeldTimesDiffer(handles: map<nat, Handle>, log: seq<Stamped>, clock: nat, p: nat)
    requires Covered(handles, log) && Timed(log, clock) && PayloadsOk(handles) && p in handles
    ensures TimesDiffer(handles[p].payloads)
  {
    var held := handles[p].payloads;
    if held.Map? {
      forall j, k | j in held.entries && k in held.entries && j != k
        ensures held.entries[j].timestamp != held.entries[k].timestamp
      {
        assert Holds(held, Some(j), held.entries[j]) && Holds(held, Some(k), held.entries[k]);
        var a :| a in log && a.e.key == Some(j) && a.Saved() == held.entries[j];
        var b :| b in log && b.e.key == Some(k) && b.Saved() == held.entries[k];
        if a.time == b.time { SameTimeSameEntry(log, clock, a, b); }
      }
    }
  }

  lemma Extends(handles: map<nat, Handle>, done: set<nat>, refs: seq<Payload>, p: nat, more: seq<Payload>, log: seq<Stamped>, clock: nat)
    requires Covered(handles, log) && Timed(log, clock)
    requires Collected(handles, done, refs) && p in handles && p !in done
    requires DistinctTimes(more) && forall x :: x in more <==> exists key :: Holds(handles[p].payloads, key, x)
    ensures Collected(handles, done + {p}, refs + more)
  {
    forall x, y | x in refs && y in more
      ensures x.timestamp != y.timestamp
    {
      var q, kq :| q in done && q in handles && Holds(handles[q].payloads, kq, x);
      var kp :| Holds(handles[p].payloads, kp, y);
      var a :| a in log && a.e.proxy == q && a.Saved() == x;
      var b :| b in log && b.e.proxy == p && b.Saved() == y;
      if a.time == b.time { SameTimeSameEntry(log, clock, a, b); }
    }
    forall x
      ensures x in refs + more <==> HeldBy(handles, done + {p}, x)
    {
      assert HeldBy(handles, done + {p}, x) <==> HeldBy(handles, done, x) || exists key :: Holds(handles[p].payloads, key, x);
    }
  }

  lemma {:induction false} ConcatIsLogBytes(log: seq<Stamped>)
    ensures Concat(Mapped(log, (st: Stamped) => st.Saved())) == LogBytes(Entries(log))
  {
    if log != [] {
      var front := log[..|log| - 1];
      ConcatIsLogBytes(front);
      assert Mapped(log, (st: Stamped) => st.Saved())[..|log| - 1] == Mapped(front, (st: Stamped) => st.Saved());
      assert Entries(log)[..|log| - 1] == Entries(front);
    }
  }

  lemma SerializedInOrder(handles: map<nat, Handle>, refs: seq<Payload>, log: seq<Stamped>, clock: nat)
    requires Stored(handles, log) && Covered(handles, log) && Timed(log, clock)
    requires Collected(handles, handles.Keys, refs)
    ensures Concat(SortByTime(refs)) == LogBytes(Entries(log))
  {
    var saved := Mapped(log, (st: Stamped) => st.Saved());
    SortSorts(refs);
    forall x
      ensures x in saved <==> x in refs
    {
      if x in saved {
        var i :| 0 <= i < |saved| && saved[i] == x;
        assert log[i] in log;
        assert HeldBy(handles, handles.Keys, x);
      }
      if x in refs {
        var p, key :| p in handles && Holds(handles[p].payloads, key, x);
        var st :| st in log && st.Saved() == x;
        var i :| 0 <= i < |log| && log[i] == st;
        assert saved[i] == x;
      }
    }
    IncreasingUnique(SortByTime(refs), saved);
    ConcatIsLogBytes(log);
  }

  /** `extend_refs`: the payloads of one handle. */
  method ExtendRefs(held: Payloads) returns (refs: seq<Payload>)
    requires TimesDiffer(held)
    ensures DistinctTimes(refs) && forall x :: x in refs <==> exists key :: Holds(held, key, x)
  {
    match held {
      case Empty => refs := [];
      case Vec(items) =>
        refs := items;
        assert forall x :: Holds(held, None, x) <==> x in items;
      case Map(entries) =>
        refs := [];
        var todo := entries.Keys;
        while todo != {}
          invariant todo <= entries.Keys && DistinctTimes(refs)
          invariant forall x :: x in refs <==> exists k :: k in entries && k !in todo && entries[k] == x
          decreases todo
        {
          var k :| k in todo;
          assert forall x :: x in refs ==> x.timestamp != entries[k].timestamp;
          refs := refs + [entries[k]];
          todo := todo - {k};
        }
        forall x
          ensures x in refs <==> exists key :: Holds(held, key, x)
        {
          if x in refs {
            var k :| k in entries && entries[k] == x;
            assert Holds(held, Some(k), x);
          }
        }
    }
  }

  class Manager {
    var handles: map<nat, Handle>
    var clock: nat
    ghost var log: seq<Stamped>

    ghost predicate Valid()
      reads this
    {
      Stored(handles, log) && Covered(handles, log) && Timed(log, clock) && PayloadsOk(handles)
    }

    constructor ()
      ensures Valid() && handles == map[] && Entries(log) == []
    {
      handles, clock, log := map[], 1, [];
    }

    /** `insert`: a fresh handle without payloads; whatever the proxy held before is gone. */
    method Insert(proxy: nat, value: nat)
      requires Valid()
      modifies this`handles, this`log
      ensures Valid() && handles == old(handles)[proxy := Handle(value, Empty)]
      ensures Entries(log) == Filter(old(Entries(log)), Log.NotOf(proxy))
    {
      hide Stored, Covered, Timed, PayloadsOk, Entries, Filter;
      var updated := handles[proxy := Handle(value, Empty)];
      RemovedAgrees(handles, log, proxy, updated);
      FilterTimed(log, clock, Other(proxy));
      EntriesFilter(log, Log.NotOf(proxy), Other(proxy));
      handles := updated;
      log := Filter(log, Other(proxy));
    }

    /** `insert_args`: the payload joins its handle, replacing one with the same key. It panics, and
        then the table is as before, if the handle is unknown or its payloads are of the other kind. */
    method InsertArgs(proxy: nat, key: Option<nat>, args: seq<Byte>, ghost e: Log.Entry) returns (ok: bool)
      requires Valid() && e.proxy == proxy && e.key == key && e.args == args
      modifies this
      ensures Valid() && handles.Keys == old(handles).Keys
      ensures forall p :: p in handles ==> handles[p].value == old(handles)[p].value
      ensures ok <==> proxy in old(handles) && Log.SameKind(old(Entries(log)), e)
      ensures Entries(log) == if ok then Log.Recorded(old(Entries(log)), e) else old(Entries(log))
    {
      hide Stored, Covered, Timed, PayloadsOk, Entries, Filter, Log.SameKind, Log.Recorded, Added, Kept;
      if proxy !in handles { return false; }
      var x := Payload(clock, args);
      KindsAgree(handles, log, e, x);
      var added := Added(handles[proxy].payloads, key, x);
      if added.None? { return false; }
      AddedAgrees(handles, log, e, clock);
      AddedInOrder(handles, log, e, clock);
      KeptTimed(log, e, clock);
      KeptEntries(log, e, clock);
      handles := handles[proxy := handles[proxy].(payloads := added.value)];
      log := Kept(log, e) + [Stamped(clock, e)];
      clock := clock + 1;
      ok := true;
    }

    /** `get`: the driver value behind a proxy; destroying also drops the handle and its records.
        Proxy 0 is the null handle. None is the panic on an unknown proxy. */
    method Get(proxy: nat, isDestroy: bool) returns (r: Option<nat>)
      requires Valid()
      modifies this`handles, this`log
      ensures Valid()
      ensures r == if proxy == 0 then Some(0)
                   else if proxy in old(handles) then Some(old(handles)[proxy].value) else None
      ensures if isDestroy && proxy != 0 && r.Some?
              then handles == old(handles) - {proxy} && Entries(log) == Filter(old(Entries(log)), Log.NotOf(proxy))
              else handles == old(handles) && log == old(log)
    {
      hide Stored, Covered, Timed, PayloadsOk, Entries, Filter;
      if proxy == 0 { return Some(0); }
      if proxy !in handles { return None; }
      r := Some(handles[proxy].value);
      if isDestroy {
        RemovedAgrees(handles, log, proxy, handles - {proxy});
        FilterTimed(log, clock, Other(proxy));
        EntriesFilter(log, Log.NotOf(proxy), Other(proxy));
        handles := handles - {proxy};
        log := Filter(log, Other(proxy));
      }
    }

    /** `serialize`: the requests of all recorded calls, in the order they were recorded. */
    method Serialize() returns (output: seq<Byte>)
      requires Valid()
      ensures output == LogBytes(Entries(log))
    {
      var refs := [];
      var todo := handles.Keys;
      while todo != {}
        invariant todo <= handles.Keys
        invariant Collected(handles, handles.Keys - todo, refs)
        decreases todo
      {
        hide Stored, Covered, Timed, PayloadsOk, Collected;
        var proxy :| proxy in todo;
        HeldTimesDiffer(handles, log, clock, proxy);
        var more := ExtendRefs(handles[proxy].payloads);
        Extends(handles, handles.Keys - todo, refs, proxy, more, log, clock);
        assert handles.Keys - (todo - {proxy}) == handles.Keys - todo + {proxy};
        refs := refs + more;
        todo := todo - {proxy};
      }
      assert handles.Keys - {} == handles.Keys;
      SerializedInOrder(handles, refs, log, clock);
      output := Concat(SortByTime(refs));
    }
  }

  lemma KeptTimed(log: seq<Stamped>, e: Log.Entry, clock: nat)
    requires Timed(log, clock)
    ensures Timed(Kept(log, e) + [Stamped(clock, e)], clock + 1)
  {
    if e.key.Some? { FilterTimed(log, clock, OtherKey(e.proxy, e.key.value)); }
  }

  lemma KeptEntries(log: seq<Stamped>, e: Log.Entry, clock: nat)
    ensures Entries(Kept(log, e) + [Stamped(clock, e)]) == Log.Recorded(Entries(log), e)
  {
    if e.key.Some? {
      EntriesFilter(log, Log.NotKey(e.proxy, e.key.value), OtherKey(e.proxy, e.key.value));
    }
  }
}
