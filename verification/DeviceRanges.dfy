/** The address ranges the device memory manager hands out over whole runs: frees, failed
    allocations, checkpoints and restores included. */
module DeviceRanges {
  import opened DeviceMemory
  import opened DeviceRestore

  datatype Range = Range(start: nat, len: nat) {
    function End(): nat { start + len }
  }

  /** A call, or a move to another worker: checkpoint, then restore into a blank manager. */
  datatype Event = Call(op: Op, d: Driver) | Restart(a: Answers)

  ghost function BlankOf(s: State): State { s.(next := s.lo, allocations := map[], handles := map[]) }

  datatype Trace = Trace(s: State, given: seq<Range>)

  ghost function Happens(t: Trace, e: Event): Trace
    requires t.s.granularity > 0
  {
    match e
    case Restart(a) => t.(s := Restore(BlankOf(t.s), Checkpoint(t.s), a).0)
    case Call(op, d) =>
      var (s, r) := Step(t.s, op, d);
      if r.Ok? && (op.DoAllocate? || op.DoReserve?)
      then Trace(s, t.given + [Range(r.value, RoundUp(op.size, t.s.granularity))])
      else t.(s := s)
  }

  // ---------------------------------------------------------------- one request, exactly

  /** What a request should do: refuse, or hand out the next rounded-up range and move past it. */
  ghost predicate Honoured(s: State, size: nat, t: State, r: Outcome)
    requires s.granularity > 0
  {
    var n := RoundUp(size, s.granularity);
    if s.next + n > s.hi then r == Err(OutOfMemory) && t == s
    else r == Ok(s.next) && t == s.(next := s.next + n)
  }

  /** The request is so large that the rounding or the addition wraps to an end inside the range. */
  ghost predicate Wraps(s: State, size: nat) {
    && s.granularity > 0
    && var n := RoundUp(size, s.granularity);
       s.next + n >= WORDS && (s.next + n) % WORDS <= s.hi
  }

  lemma ModOnce(a: nat, b: nat)
    ensures (a + b % WORDS) % WORDS == (a + b) % WORDS
  {
    var q := b / WORDS;
    assert b == q * WORDS + b % WORDS;
    assert (a + b) == (a + b % WORDS) + q * WORDS;
    ModShift(a + b % WORDS, q);
  }

  lemma {:induction false} ModShift(x: nat, q: nat)
    ensures (x + q * WORDS) % WORDS == x % WORDS
  {
    if q > 0 {
      ModShift(x, q - 1);
      assert (x + q * WORDS) == (x + (q - 1) * WORDS) + WORDS;
    }
  }

  /** `reserve_aligned` does what it should exactly for the requests that do not wrap. */
  lemma ReserveIsExact(s: State, size: nat)
    requires s.granularity > 0 && s.next <= s.hi < WORDS
    ensures var (t, r) := Reserve(s, NextMultiple(size, s.granularity));
            Honoured(s, size, t, r) <==> !Wraps(s, size)
  {
    var n := RoundUp(size, s.granularity);
    hide RoundUp;
    ModOnce(s.next, n);
    if s.next + n < WORDS {
      assert (s.next + n) % WORDS == s.next + n;
    }
  }

  // ---------------------------------------------------------------- whole runs

  /** No request of the run wraps. */
  ghost predicate Modest(t: Trace, e: Event) {
    e.Call? && (e.op.DoAllocate? || e.op.DoReserve?) ==> !Wraps(t.s, e.op.size)
  }

  /** User maps stay inside a range handed out before. */
  ghost predicate MapsInside(t: Trace, e: Event) {
    e.Call? && e.op.DoMap? ==>
      exists r :: r in t.given && r.start <= e.op.ptr && e.op.ptr + e.op.size <= r.End()
  }

  ghost predicate Orderly(given: seq<Range>, g: nat, lo: nat, next: nat)
    requires g > 0
  {
    && (forall i :: 0 <= i < |given| ==> lo <= given[i].start && given[i].End() <= next)
    && (forall i :: 0 <= i < |given| ==> given[i].start % g == 0 && given[i].len % g == 0)
    && (forall i, j :: 0 <= i < j < |given| ==> given[i].End() <= given[j].start)
  }

  ghost predicate Bumped(s: State) {
    && 0 < s.granularity && s.hi < WORDS && s.lo <= s.next <= s.hi
    && s.next % s.granularity == 0
  }

  ghost predicate SegmentsBelow(allocations: map<nat, Slot>, lo: nat, next: nat) {
    forall p :: p in allocations ==> lo <= p < p + allocations[p].size <= next
  }

  ghost predicate TraceInv(t: Trace) {
    Bumped(t.s) && Orderly(t.given, t.s.granularity, t.s.lo, t.s.next)
  }

  lemma Scaled(k: int, g: nat)
    requires g > 0
    ensures k >= 1 ==> k * g >= g
    ensures k <= -1 ==> k * g <= 0 - g
  {
  }

  lemma Multiple(q: nat, g: nat)
    requires g > 0
    ensures q * g % g == 0
  {
    var d := q * g / g;
    assert (q - d) * g == q * g % g;
    Scaled(q - d, g);
  }

  lemma SumAligned(a: nat, b: nat, g: nat)
    requires g > 0 && a % g == 0 && b % g == 0
    ensures (a + b) % g == 0
  {
    assert a + b == (a / g + b / g) * g;
    Multiple(a / g + b / g, g);
  }

  lemma Rounded(n: nat, g: nat)
    requires g > 0
    ensures RoundUp(n, g) % g == 0 && n <= RoundUp(n, g)
  {
    if n % g != 0 {
      assert n + (g - n % g) == (n / g + 1) * g;
      Multiple(n / g + 1, g);
    }
  }

  /** Only the two reserving calls move `next` or hand out a range, and then as they should. */
  lemma CallMoves(s: State, op: Op, d: Driver)
    requires s.granularity > 0 && s.next <= s.hi < WORDS
    requires op.DoAllocate? || op.DoReserve? ==> !Wraps(s, op.size)
    ensures var (t, r) := Step(s, op, d);
            && t.granularity == s.granularity && t.lo == s.lo && t.hi == s.hi
            && (t.next == s.next || ((op.DoAllocate? || op.DoReserve?) && t.next == s.next + RoundUp(op.size, s.granularity) <= s.hi))
            && ((op.DoAllocate? || op.DoReserve?) && r.Ok? ==>
                  r.value == s.next && t.next == s.next + RoundUp(op.size, s.granularity) <= s.hi)
  {
    hide RoundUp, Free, Max, IsMax;
    if op.DoAllocate? || op.DoReserve? { ReserveIsExact(s, op.size); }
  }

  lemma RestartMoves(s: State, a: Answers)
    requires s.next <= s.hi
    ensures var t := Restore(BlankOf(s), Checkpoint(s), a).0;
            t.granularity == s.granularity && t.lo == s.lo && t.hi == s.hi && t.next == s.next
  {
    hide Sorted, NewHandles, NewSlots, HandlesOutcome, SegmentsOutcome;
  }

  lemma OrderlyAppend(given: seq<Range>, g: nat, lo: nat, next: nat, len: nat)
    requires g > 0 && Orderly(given, g, lo, next) && lo <= next && next % g == 0 && len % g == 0
    ensures Orderly(given + [Range(next, len)], g, lo, next + len)
  {
    var more := given + [Range(next, len)];
    assert forall i :: 0 <= i < |given| ==> more[i] == given[i];
  }

  lemma OrderlyGrows(given: seq<Range>, g: nat, lo: nat, next: nat, next': nat)
    requires g > 0 && Orderly(given, g, lo, next) && next <= next'
    ensures Orderly(given, g, lo, next')
  {
  }

  lemma HappensKeeps(t: Trace, e: Event)
    requires TraceInv(t) && Modest(t, e)
    ensures TraceInv(Happens(t, e)) && t.s.next <= Happens(t, e).s.next
    ensures Happens(t, e).s.granularity == t.s.granularity && Happens(t, e).s.lo == t.s.lo
    ensures t.given <= Happens(t, e).given
    ensures forall i :: |t.given| <= i < |Happens(t, e).given| ==> t.s.next <= Happens(t, e).given[i].start
  {
    hide Step, Restore, Checkpoint, Orderly, RoundUp;
    var t' := Happens(t, e);
    match e
    case Restart(a) => RestartMoves(t.s, a);
    case Call(op, d) =>
      CallMoves(t.s, op, d);
      if op.DoAllocate? || op.DoReserve? {
        var n := RoundUp(op.size, t.s.granularity);
        Rounded(op.size, t.s.granularity);
        SumAligned(t.s.next, n, t.s.granularity);
        OrderlyAppend(t.given, t.s.granularity, t.s.lo, t.s.next, n);
      }
      OrderlyGrows(t.given, t.s.granularity, t.s.lo, t.s.next, t'.s.next);
  }

  lemma AllocatedBelow(s: State, size: nat, d: Driver)
    requires s.granularity > 0 && s.lo <= s.next <= s.hi < WORDS && !Wraps(s, size)
    requires SegmentsBelow(s.allocations, s.lo, s.next)
    ensures SegmentsBelow(Allocate(s, size, d).0.allocations, s.lo, Allocate(s, size, d).0.next)
  {
    hide RoundUp, Free, Max, IsMax;
    ReserveIsExact(s, size);
    var n := RoundUp(size, s.granularity);
    if n < WORDS { assert NextMultiple(size, s.granularity) == n; }
  }

  lemma CallBelow(t: Trace, op: Op, d: Driver)
    requires TraceInv(t) && Modest(t, Call(op, d)) && MapsInside(t, Call(op, d))
    requires SegmentsBelow(t.s.allocations, t.s.lo, t.s.next)
    ensures var s := Step(t.s, op, d).0; SegmentsBelow(s.allocations, s.lo, s.next)
  {
    hide RoundUp, Free, Max, IsMax, Allocate, Wraps;
    CallMoves(t.s, op, d);
    match op
    case DoAllocate(size) => AllocatedBelow(t.s, size, d);
    case DoMap(ptr, size, proxy) =>
      var r :| r in t.given && r.start <= ptr && ptr + size <= r.End();
      var i :| 0 <= i < |t.given| && t.given[i] == r;
      assert t.s.lo <= t.given[i].start && t.given[i].End() <= t.s.next;
    case _ =>
  }

  lemma RestartBelow(s: State, a: Answers)
    requires s.next <= s.hi && SegmentsBelow(s.allocations, s.lo, s.next)
    ensures SegmentsBelow(Restore(BlankOf(s), Checkpoint(s), a).0.allocations, s.lo, s.next)
  {
    hide Sorted, NewHandles, NewSlots, HandlesOutcome, SegmentsOutcome, HandleMetas, Segments, SegmentsBelow;
    var ks := Sorted(s.allocations.Keys);
    var m := Checkpoint(s);
    var handles := NewHandles(m.handles, s.created);
    SortedLists(s.allocations.Keys);
    RestoredBelow(s.allocations, ks, handles, s.created + |m.handles|, s.lo, s.next);
  }

  lemma RestoredBelow(allocations: map<nat, Slot>, ks: seq<nat>, handles: map<nat, UserHandle>, created: nat, lo: nat, next: nat)
    requires Lists(ks, allocations.Keys) && SegmentsBelow(allocations, lo, next)
    ensures SegmentsBelow(NewSlots(Segments(allocations, ks), handles, created), lo, next) && SegmentsBelow(map[], lo, next)
  {
    hide NewSlots, Lists, Segments;
    var r := NewSlots(Segments(allocations, ks), handles, created);
    forall p | p in r
      ensures lo <= p < p + r[p].size <= next
    {
      var i := OnlySlotsRestored(allocations, ks, handles, created, p);
      SlotRestored(allocations, ks, handles, created, i);
    }
  }

  lemma HappensBelow(t: Trace, e: Event)
    requires TraceInv(t) && Modest(t, e) && MapsInside(t, e) && SegmentsBelow(t.s.allocations, t.s.lo, t.s.next)
    ensures var s := Happens(t, e).s; SegmentsBelow(s.allocations, s.lo, s.next)
  {
    hide Step, Restore, Checkpoint, Orderly, RoundUp, MapsInside, SegmentsBelow, Modest;
    match e
    case Restart(a) =>
      RestartMoves(t.s, a);
      RestartBelow(t.s, a);
    case Call(op, d) => CallBelow(t, op, d);
  }

  /** A run; it stutters on a worker without granularity, which no worker has. */
  ghost function Exec(t: Trace, events: seq<Event>): Trace {
    if events == [] then t
    else
      var before := Exec(t, events[..|events| - 1]);
      if before.s.granularity == 0 then before else Happens(before, events[|events| - 1])
  }

  ghost predicate AllModest(t: Trace, events: seq<Event>) {
    events != [] ==>
      var before := Exec(t, events[..|events| - 1]);
      AllModest(t, events[..|events| - 1]) && before.s.granularity > 0 && Modest(before, events[|events| - 1])
  }

  ghost predicate AllInside(t: Trace, events: seq<Event>) {
    events != [] ==>
      AllInside(t, events[..|events| - 1]) && MapsInside(Exec(t, events[..|events| - 1]), events[|events| - 1])
  }

  /** A worker that has just reserved its range. */
  ghost predicate Start(t: Trace) {
    && t.given == [] && t.s.allocations == map[] && t.s.handles == map[]
    && Bumped(t.s) && t.s.next == t.s.lo
  }

  /** Main result. Over every run in which no request wraps, with any answers of the driver, frees,
      failed allocations and restarts, the ranges handed out are pairwise disjoint and in address
      order, aligned to the granularity, and inside the reserved range. */
  lemma {:induction false} RangesStayApart(t: Trace, events: seq<Event>)
    requires TraceInv(t) && AllModest(t, events)
    ensures TraceInv(Exec(t, events)) && t.s.next <= Exec(t, events).s.next
    ensures t.given <= Exec(t, events).given
    ensures forall i :: |t.given| <= i < |Exec(t, events).given| ==> t.s.next <= Exec(t, events).given[i].start
  {
    hide TraceInv, Modest, Happens;
    if events != [] {
      RangesStayApart(t, events[..|events| - 1]);
      HappensKeeps(Exec(t, events[..|events| - 1]), events[|events| - 1]);
    }
  }

  lemma {:induction false} SegmentsStayBelow(t: Trace, events: seq<Event>)
    requires TraceInv(t) && SegmentsBelow(t.s.allocations, t.s.lo, t.s.next)
    requires AllModest(t, events) && AllInside(t, events)
    ensures var s := Exec(t, events).s; SegmentsBelow(s.allocations, s.lo, s.next)
  {
    hide TraceInv, Modest, Happens, SegmentsBelow, MapsInside;
    if events != [] {
      var front := events[..|events| - 1];
      RangesStayApart(t, front);
      SegmentsStayBelow(t, front);
      HappensBelow(Exec(t, front), events[|events| - 1]);
    }
  }

  ghost predicate RangesApart(allocations: map<nat, Slot>, given: seq<Range>, from: nat) {
    forall p, i :: p in allocations && from <= i < |given| ==> Apart(p, allocations[p].size, given[i].start, given[i].len)
  }

  /** A mapping alive at some moment, restored or not, never overlaps a range handed out later. */
  lemma LaterRangesAreApart(t: Trace, before: seq<Event>, after: seq<Event>)
    requires Start(t) && AllModest(t, before) && AllInside(t, before) && AllModest(Exec(t, before), after)
    ensures var now := Exec(t, before);
            RangesApart(now.s.allocations, Exec(now, after).given, |now.given|)
  {
    RangesStayApart(t, before);
    SegmentsStayBelow(t, before);
    RangesStayApart(Exec(t, before), after);
    hide Exec, AllModest, AllInside;
  }

  /** While requests do not wrap and user maps stay inside their ranges, an allocation is refused for
      overlap never: with room left and a willing driver it succeeds. */
  lemma AllocationsFit(t: Trace, events: seq<Event>, size: nat)
    requires Start(t) && AllModest(t, events) && AllInside(t, events)
    requires size > 0 && !Wraps(Exec(t, events).s, size)
    ensures var s := Exec(t, events).s;
            0 < s.granularity && (Allocate(s, size, IDLE).1 ==
            if s.next + RoundUp(size, s.granularity) <= s.hi then Ok(s.next) else Err(OutOfMemory))
  {
    RangesStayApart(t, events);
    SegmentsStayBelow(t, events);
    var s := Exec(t, events).s;
    FitsBelow(s, size);
  }

  lemma FitsBelow(s: State, size: nat)
    requires Bumped(s) && SegmentsBelow(s.allocations, s.lo, s.next) && size > 0 && !Wraps(s, size)
    ensures Allocate(s, size, IDLE).1 ==
            if s.next + RoundUp(size, s.granularity) <= s.hi then Ok(s.next) else Err(OutOfMemory)
  {
    Rounded(size, s.granularity);
    ReserveIsExact(s, size);
    hide RoundUp;
    var n := RoundUp(size, s.granularity);
    if s.next + n <= s.hi {
      assert NextMultiple(size, s.granularity) == n;
      assert Free(s.allocations, s.next, n);
    }
  }

  const MIB2: nat := 0x20_0000

  /** Three reservations, the middle one within a granule of 2^64 bytes: `next` goes back and the
      third is handed the range of the first. */
  lemma WrappedRequestRepeatsARange(t: Trace) returns (events: seq<Event>)
    requires Start(t) && t.s.granularity == MIB2 && t.s.lo + MIB2 <= t.s.hi
    ensures var given := Exec(t, events).given;
            |given| == 3 && given[0] == given[2] == Range(t.s.lo, MIB2)
  {
    hide Happens, Exec, RoundUp;
    var small, huge := Call(DoReserve(MIB2, 0), IDLE), Call(DoReserve(WORDS - MIB2, 0), IDLE);
    events := [] + [small] + [huge] + [small];
    WrapsBack(t.s.lo);
    ExecNext(t, [], small);
    ExecNext(t, [] + [small], huge);
    ExecNext(t, [] + [small] + [huge], small);
    var t1 := Reserves(t, MIB2);
    var t2 := Reserves(t1, WORDS - MIB2);
    assert t2.s == t.s;
    var t3 := Reserves(t2, MIB2);
  }

  lemma ExecNext(t: Trace, events: seq<Event>, e: Event)
    ensures Exec(t, []) == t
    ensures var before := Exec(t, events); Exec(t, events + [e]) == if before.s.granularity == 0 then before else Happens(before, e)
  {
    hide Happens;
    assert (events + [e])[..|events|] == events;
  }

  /** One accepted reservation. */
  lemma Reserves(t: Trace, size: nat) returns (u: Trace)
    requires t.s.granularity == MIB2 && t.s.next < WORDS
    ensures u == Happens(t, Call(DoReserve(size, 0), IDLE))
    ensures var next := (t.s.next + RoundUp(size, MIB2)) % WORDS;
            RoundUp(size, MIB2) > 0 && next <= t.s.hi ==>
              u == t.(s := t.s.(next := next), given := t.given + [Range(t.s.next, RoundUp(size, MIB2))])
  {
    u := Happens(t, Call(DoReserve(size, 0), IDLE));
  }

  lemma WrapsBack(lo: nat)
    requires lo < WORDS
    ensures (lo + MIB2 + (WORDS - MIB2)) % WORDS == lo && RoundUp(WORDS - MIB2, MIB2) == WORDS - MIB2 && RoundUp(MIB2, MIB2) == MIB2
  {
  }
}
