/** Attaching a parked client while it is alive: trying to get into its next call, or exiting. The
    snapshot lies over the request ring, and the client writes into that same memory: requests once
    it is unlocked, its exit message whenever it exits, for that takes no flag. */
module Attach {
  import opened Bytes
  import opened RingIndex
  import Snap = Snapshot

  /** Where things are: ring capacity, the common position of head and tail, the byte positions read
      while the client is locked (header, kernels, memory metadata), those of the handle log, and how
      many bytes of device contents lie over the reply ring; whether the log is needed (the worker has
      no handles of the client yet); and which order is modelled. */
  datatype Plan = Plan(cap: nat, home: nat, locked: seq<nat>, handles: seq<nat>, raw: nat, needed: bool, copyFirst: bool)

  ghost predicate PlanOk(c: Plan) {
    && c.home < c.cap
    && (forall i :: 0 <= i < |c.locked| ==> c.locked[i] < c.cap)
    && (forall i :: 0 <= i < |c.handles| ==> c.handles[i] < c.cap)
  }

  /** Exiting: the exit path, with `bytes` of its message written. */
  datatype Client = Out | InCall | Exiting(bytes: nat)

  /** About to test that the ring is empty; reading under the lock; handles still to copy; the byte
      vector is being replayed; live requests; the test failed. */
  datatype Server = Opening | Reading | Copying | Replaying | Serving | Dead

  datatype State = State(
    inUse: bool, disabled: bool,        // the two bits of the flag word
    buf: seq<Byte>, head: nat, tail: nat,
    reply: seq<Byte>,                   // the reply ring's memory, which the client only reads
    client: Client, server: Server,
    got: seq<Byte>, raw: seq<Byte>,     // bytes read so far: the locked sections, the device contents,
    log: seq<Byte>,                     // and the handle log
    sent: seq<Byte>, taken: seq<Byte>)  // request bytes written by the client, and taken by the worker

  datatype Action = Enter | Write(b: Byte) | Leave | Bye | Serve | ReplayEnds

  const MESSAGE: nat := 4               // procedure id -1: four bytes of 0xFF
  const BYE_BYTE: Byte := 0xFF

  /** Detached and drained: the client locked out, both ring positions at `home`. */
  ghost predicate Parked(c: Plan, s: State) {
    && |s.buf| == c.cap && s.head == s.tail == c.home && s.disabled && !s.inUse && s.client.Out?
    && c.raw <= |s.reply| && s.server.Opening? && s.got == s.raw == s.log == s.sent == s.taken == []
  }

  ghost predicate InBounds(c: Plan, s: State) {
    PlanOk(c) && |s.buf| == c.cap && s.head < c.cap && s.tail < c.cap && c.raw <= |s.reply|
  }

  function Next(cap: nat, pos: nat): nat { if pos + 1 == cap then 0 else pos + 1 }

  ghost function ServeStep(c: Plan, s: State): State
    requires InBounds(c, s)
  {
    match s.server
    case Opening => s.(server := if s.head == s.tail then Reading else Dead)      // as_buffer
    case Reading =>
      if |s.got| < |c.locked| then s.(got := s.got + [s.buf[c.locked[|s.got|]]])
      else if |s.raw| < c.raw then s.(raw := s.raw + [s.reply[|s.raw|]])
      else if c.copyFirst && c.needed && |s.log| < |c.handles| then s.(log := s.log + [s.buf[c.handles[|s.log|]]])
      else s.(disabled := false, server := Copying)                                // clear_flag
    case Copying =>
      if c.needed && |s.log| < |c.handles| then s.(log := s.log + [s.buf[c.handles[|s.log|]]])
      else s.(server := Replaying)                                                  // the vector replaces the ring
    case Replaying => s
    case Serving =>
      if s.head == s.tail then s else s.(taken := s.taken + [s.buf[s.head]], head := Next(c.cap, s.head))
    case Dead => s
  }

  /** Room for one more byte. */
  ghost predicate Room(c: Plan, s: State)
    requires InBounds(c, s)
  {
    !IsFull(c.cap, s.head, s.tail)
  }

  ghost function Put(c: Plan, s: State, b: Byte): State
    requires InBounds(c, s)
  {
    s.(buf := s.buf[s.tail := b], tail := Next(c.cap, s.tail), sent := s.sent + [b])
  }

  function ByeBytes(client: Client): nat { match client case Exiting(n) => n case _ => 0 }

  ghost function Step(c: Plan, s: State, a: Action): State {
    if !InBounds(c, s) then s else match a
      case Enter => if s.client.Out? && !s.inUse && !s.disabled then s.(inUse := true, client := InCall) else s
      case Write(b) => if s.client.InCall? && Room(c, s) then Put(c, s, b) else s
      case Leave => if s.client.InCall? then s.(inUse := false, client := Out) else s
      case Bye =>
        if !s.client.InCall? && ByeBytes(s.client) < MESSAGE && Room(c, s)
        then Put(c, s, BYE_BYTE).(client := Exiting(ByeBytes(s.client) + 1)) else s
      case Serve => ServeStep(c, s)
      case ReplayEnds => if s.server.Replaying? then s.(server := Serving) else s
  }

  ghost function Exec(c: Plan, s: State, actions: seq<Action>): State {
    if actions == [] then s else Step(c, Exec(c, s, actions[..|actions| - 1]), actions[|actions| - 1])
  }

  function At(buf: seq<Byte>, positions: seq<nat>): seq<Byte>
    requires forall i :: 0 <= i < |positions| ==> positions[i] < |buf|
  {
    seq(|positions|, i requires 0 <= i < |positions| => buf[positions[i]])
  }

  /** The one position a client that nobody reads from can never write: the byte a full ring leaves. */
  function Unwritable(c: Plan): nat { if c.home > 0 then c.home - 1 else if c.cap > 0 then c.cap - 1 else 0 }

  /** How far ahead of `home` a position lies on the ring. */
  function Ahead(c: Plan, p: nat): nat
    requires p < c.cap && c.home < c.cap
  {
    if p >= c.home then p - c.home else p + c.cap - c.home
  }

  function Shift(c: Plan, n: nat): nat
    requires c.home < c.cap && n < c.cap
  {
    if c.home + n < c.cap then c.home + n else c.home + n - c.cap
  }

  // ---------------------------------------------------------------- exit bytes in the run

  /** For every locked byte read in the run, how many exit bytes had been written by then. */
  ghost function Exits(c: Plan, s: State, actions: seq<Action>): seq<nat> {
    if actions == [] then []
    else
      var front := actions[..|actions| - 1];
      var before, after := Exec(c, s, front), Exec(c, s, actions);
      Exits(c, s, front) + if |before.got| < |after.got| then [ByeBytes(before.client)] else []
  }

  /** No exit byte changed one of these positions before it was read. */
  ghost predicate Unhit(c: Plan, was: seq<Byte>, exits: seq<nat>)
    requires PlanOk(c) && |was| == c.cap
  {
    forall i :: 0 <= i < |exits| && i < |c.locked| ==> !(Ahead(c, c.locked[i]) < exits[i] && was[c.locked[i]] != BYE_BYTE)
  }

  // ---------------------------------------------------------------- the invariant

  /** The ring's memory with `n` exit bytes written from `home` on. */
  ghost function Marked(c: Plan, was: seq<Byte>, n: nat): (r: seq<Byte>)
    requires c.home < c.cap == |was|
    ensures |r| == c.cap && forall p :: 0 <= p < c.cap ==> r[p] == if Ahead(c, p) < n then BYE_BYTE else was[p]
  {
    seq(c.cap, p requires 0 <= p < c.cap => if Ahead(c, p) < n then BYE_BYTE else was[p])
  }

  ghost predicate Locked(c: Plan, was: seq<Byte>, s: State)
    requires PlanOk(c) && |was| == c.cap
  {
    && s.disabled && !s.client.InCall? && ByeBytes(s.client) < c.cap
    && s.buf == Marked(c, was, ByeBytes(s.client)) && s.tail == Shift(c, ByeBytes(s.client))
  }

  /** The locked bytes read, each as the memory was when it was read. */
  ghost predicate Read(c: Plan, was: seq<Byte>, got: seq<Byte>, exits: seq<nat>)
    requires PlanOk(c) && |was| == c.cap
  {
    && |got| == |exits| <= |c.locked|
    && forall i :: 0 <= i < |got| ==> got[i] == if Ahead(c, c.locked[i]) < exits[i] then BYE_BYTE else was[c.locked[i]]
  }

  ghost predicate Started(s: Server) { s.Copying? || s.Replaying? || s.Serving? }

  /** The handle log can be read wrong in no interleaving: a check on layout, order and contents. Under
      the lock only exit bytes are written; after the unlock anything anywhere but in one place. */
  ghost predicate Safe(c: Plan, was: seq<Byte>)
    requires PlanOk(c) && |was| == c.cap
  {
    !c.needed || forall i :: 0 <= i < |c.handles| ==>
      || c.handles[i] == Unwritable(c)
      || (c.copyFirst && (Ahead(c, c.handles[i]) >= MESSAGE || was[c.handles[i]] == BYE_BYTE))
  }

  ghost predicate LogOk(c: Plan, was: seq<Byte>, s: State)
    requires PlanOk(c) && |was| == c.cap
  {
    && |s.log| <= |c.handles|
    && (!c.needed ==> s.log == [])
    && (s.server.Opening? || (s.server.Reading? && !c.copyFirst) ==> s.log == [])
    && (c.needed && c.copyFirst && Started(s.server) ==> |s.log| == |c.handles|)
    && (c.needed && (s.server.Replaying? || s.server.Serving?) ==> |s.log| == |c.handles|)
    && (Safe(c, was) ==> s.log <= At(was, c.handles))
  }

  ghost predicate Inv(c: Plan, was: seq<Byte>, s: State, exits: seq<nat>) {
    && InBounds(c, s) && |was| == c.cap
    && (s.inUse <==> s.client.InCall?) && ByeBytes(s.client) <= MESSAGE
    && (s.server.Opening? || s.server.Reading? ==> Locked(c, was, s))
    && (!s.server.Serving? ==> s.head == c.home && s.taken == [] && s.buf[Unwritable(c)] == was[Unwritable(c)])
    && s.taken + Stored(s.buf, s.head, s.tail) == s.sent
    && Read(c, was, s.got, exits) && (Started(s.server) ==> |s.got| == |c.locked|)
    && s.raw <= s.reply && |s.raw| <= c.raw && (Started(s.server) ==> |s.raw| == c.raw)
    && (s.server.Opening? || s.server.Dead? ==> s.got == [])
    && (s.server.Dead? ==> ByeBytes(s.client) > 0)
    && LogOk(c, was, s)
  }

  lemma WriteKeepsRing(buf: seq<Byte>, head: nat, tail: nat, b: Byte)
    requires head < |buf| && tail < |buf| && !IsFull(|buf|, head, tail)
    ensures Stored(buf[tail := b], head, Next(|buf|, tail)) == Stored(buf, head, tail) + [b]
  {
    FreeWriteKeepsStored(buf, head, tail, 0, b);
    PublishAppends(buf[tail := b], head, tail, 1);
  }

  lemma NotTheLastByte(c: Plan, s: State)
    requires InBounds(c, s) && s.head == c.home && Room(c, s)
    ensures s.tail != Unwritable(c)
  {
  }

  lemma MarkedNext(c: Plan, was: seq<Byte>, n: nat)
    requires c.home < c.cap == |was| && n + 1 < c.cap
    ensures Marked(c, was, n)[Shift(c, n) := BYE_BYTE] == Marked(c, was, n + 1) && Next(c.cap, Shift(c, n)) == Shift(c, n + 1)
  {
    hide Marked;
    assert Ahead(c, Shift(c, n)) == n;
    forall p | 0 <= p < c.cap && p != Shift(c, n) ensures Ahead(c, p) != n {
    }
  }

  lemma NothingMarked(c: Plan, was: seq<Byte>)
    requires c.home < c.cap == |was|
    ensures Marked(c, was, 0) == was
  {
  }

  lemma ParkedInv(c: Plan, s: State)
    requires PlanOk(c) && Parked(c, s)
    ensures Inv(c, s.buf, s, [])
  {
    NothingMarked(c, s.buf);
  }

  lemma WriteKeeps(c: Plan, was: seq<Byte>, s: State, b: Byte, exits: seq<nat>)
    requires Inv(c, was, s, exits)
    ensures Inv(c, was, Step(c, s, Write(b)), exits)
  {
    if s.client.InCall? && Room(c, s) {
      WriteKeepsRing(s.buf, s.head, s.tail, b);
      if !s.server.Serving? { NotTheLastByte(c, s); }
    }
    hide Stored, At, Marked, Read, Safe;
  }

  lemma ByeKeeps(c: Plan, was: seq<Byte>, s: State, exits: seq<nat>)
    requires Inv(c, was, s, exits)
    ensures Inv(c, was, Step(c, s, Bye), exits)
  {
    hide Stored, At, Marked, Read, Safe;
    if !s.client.InCall? && ByeBytes(s.client) < MESSAGE && Room(c, s) {
      WriteKeepsRing(s.buf, s.head, s.tail, BYE_BYTE);
      if !s.server.Serving? { NotTheLastByte(c, s); }
      if s.server.Opening? || s.server.Reading? {
        RoomLeft(c, s, ByeBytes(s.client));
        MarkedNext(c, was, ByeBytes(s.client));
      }
    }
  }

  lemma RoomLeft(c: Plan, s: State, n: nat)
    requires InBounds(c, s) && s.head == c.home && n < c.cap && s.tail == Shift(c, n) && Room(c, s)
    ensures n + 1 < c.cap
  {
  }

  ghost function ExitsNext(exits: seq<nat>, s: State, s': State): seq<nat> {
    exits + if |s.got| < |s'.got| then [ByeBytes(s.client)] else []
  }

  lemma ReadNext(c: Plan, was: seq<Byte>, s: State, exits: seq<nat>)
    requires InBounds(c, s) && |was| == c.cap && Locked(c, was, s) && Read(c, was, s.got, exits) && |s.got| < |c.locked|
    ensures Read(c, was, s.got + [s.buf[c.locked[|s.got|]]], exits + [ByeBytes(s.client)])
  {
  }

  /** The next byte of the log, read off memory that still holds it. */
  lemma LogNext(was: seq<Byte>, buf: seq<Byte>, positions: seq<nat>, log: seq<Byte>)
    requires |was| == |buf| && forall i :: 0 <= i < |positions| ==> positions[i] < |buf|
    requires log <= At(was, positions) && |log| < |positions| && buf[positions[|log|]] == was[positions[|log|]]
    ensures log + [buf[positions[|log|]]] <= At(was, positions)
  {
  }

  lemma UnwritableAhead(c: Plan)
    requires c.home < c.cap
    ensures Unwritable(c) < c.cap && Ahead(c, Unwritable(c)) == c.cap - 1
  {
  }

  lemma ReadingKeeps(c: Plan, was: seq<Byte>, s: State, exits: seq<nat>)
    requires Inv(c, was, s, exits) && (s.server.Reading? || s.server.Opening?)
    ensures Inv(c, was, ServeStep(c, s), ExitsNext(exits, s, ServeStep(c, s)))
  {
    hide Stored, At, IsFull, Read;
    assert exits + [] == exits;
    if s.server.Reading? {
      if |s.got| < |c.locked| {
        ReadNext(c, was, s, exits);
      } else if |s.raw| == c.raw && c.copyFirst && c.needed && |s.log| < |c.handles| && Safe(c, was) {
        UnwritableAhead(c);
        LogNext(was, s.buf, c.handles, s.log);
      }
      ReadLength(c, was, s.got, exits);
    } else if s.head != s.tail {
      assert ByeBytes(s.client) > 0;
    }
  }

  lemma ReadLength(c: Plan, was: seq<Byte>, got: seq<Byte>, exits: seq<nat>)
    requires PlanOk(c) && |was| == c.cap && Read(c, was, got, exits)
    ensures |got| == |exits| <= |c.locked|
  {
  }

  lemma CopyingKeeps(c: Plan, was: seq<Byte>, s: State, exits: seq<nat>)
    requires Inv(c, was, s, exits) && !s.server.Reading? && !s.server.Opening? && !s.server.Serving?
    ensures Inv(c, was, ServeStep(c, s), ExitsNext(exits, s, ServeStep(c, s)))
  {
    hide Stored, At, IsFull, Read, Marked;
    assert exits + [] == exits;
    if s.server.Copying? && c.needed && |s.log| < |c.handles| && Safe(c, was) {
      LogNext(was, s.buf, c.handles, s.log);
    }
  }

  lemma TakesFirst(buf: seq<Byte>, head: nat, tail: nat)
    requires head < |buf| && tail < |buf| && head != tail
    ensures Stored(buf, head, tail) == [buf[head]] + Stored(buf, Next(|buf|, head), tail)
  {
    ConsumeDrops(buf, head, tail, 1);
  }

  lemma TakeKeeps(c: Plan, was: seq<Byte>, s: State, exits: seq<nat>)
    requires Inv(c, was, s, exits) && s.server.Serving?
    ensures Inv(c, was, ServeStep(c, s), ExitsNext(exits, s, ServeStep(c, s)))
  {
    hide At, Stored, Safe, Read, Marked;
    assert exits + [] == exits;
    if s.head != s.tail {
      TakesFirst(s.buf, s.head, s.tail);
      var rest := Stored(s.buf, Next(c.cap, s.head), s.tail);
      assert s.taken + ([s.buf[s.head]] + rest) == s.taken + [s.buf[s.head]] + rest;
    }
  }

  lemma FlagKeeps(c: Plan, was: seq<Byte>, s: State, a: Action, exits: seq<nat>)
    requires Inv(c, was, s, exits) && (a.Enter? || a.Leave? || a.ReplayEnds?)
    ensures Inv(c, was, Step(c, s, a), exits)
  {
    hide At, Stored, Safe, Read, Marked, IsFull;
  }

  lemma GotGrows(c: Plan, s: State, a: Action)
    requires !a.Serve?
    ensures Step(c, s, a).got == s.got
  {
  }

  lemma StepKeeps(c: Plan, was: seq<Byte>, s: State, a: Action, exits: seq<nat>)
    requires Inv(c, was, s, exits)
    ensures Inv(c, was, Step(c, s, a), ExitsNext(exits, s, Step(c, s, a)))
  {
    assert InBounds(c, s);
    hide Inv, ServeStep;
    if !a.Serve? { GotGrows(c, s, a); }
    assert exits + [] == exits;
    match a
    case Enter => FlagKeeps(c, was, s, a, exits);
    case Write(b) => WriteKeeps(c, was, s, b, exits);
    case Leave => FlagKeeps(c, was, s, a, exits);
    case Bye => ByeKeeps(c, was, s, exits);
    case Serve =>
      if s.server.Serving? { TakeKeeps(c, was, s, exits); }
      else if s.server.Reading? || s.server.Opening? { ReadingKeeps(c, was, s, exits); }
      else { CopyingKeeps(c, was, s, exits); }
    case ReplayEnds => FlagKeeps(c, was, s, a, exits);
  }

  lemma {:induction false} RunKeeps(c: Plan, s: State, actions: seq<Action>)
    requires PlanOk(c) && Parked(c, s)
    ensures Inv(c, s.buf, Exec(c, s, actions), Exits(c, s, actions))
  {
    hide Inv, Step;
    if actions == [] {
      ParkedInv(c, s);
    } else {
      RunKeeps(c, s, actions[..|actions| - 1]);
      StepKeeps(c, s.buf, Exec(c, s, actions[..|actions| - 1]), actions[|actions| - 1], Exits(c, s, actions[..|actions| - 1]));
    }
  }

  lemma {:induction false} ReplyIsKept(c: Plan, s: State, actions: seq<Action>)
    ensures Exec(c, s, actions).reply == s.reply
  {
    if actions != [] { ReplyIsKept(c, s, actions[..|actions| - 1]); }
  }

  lemma AtLength(was: seq<Byte>, positions: seq<nat>)
    requires forall i :: 0 <= i < |positions| ==> positions[i] < |was|
    ensures |At(was, positions)| == |positions|
  {
  }

  lemma ReadExactly(c: Plan, was: seq<Byte>, got: seq<Byte>, exits: seq<nat>)
    requires PlanOk(c) && |was| == c.cap && Read(c, was, got, exits) && |got| == |c.locked|
    ensures got == At(was, c.locked) <==> Unhit(c, was, exits)
  {
    var all := At(was, c.locked);
    if Unhit(c, was, exits) {
      assert forall i :: 0 <= i < |got| ==> got[i] == all[i];
    }
    if got == all {
      forall i | 0 <= i < |exits| ensures !(Ahead(c, c.locked[i]) < exits[i] && was[c.locked[i]] != BYE_BYTE) {
        assert got[i] == all[i] == was[c.locked[i]];
      }
    }
  }

  /** Main result, for every interleaving with the client, its exit path included. Until the lock is
      cleared the client is out of any call. Once the locked sections are read they are as dumped
      exactly if no exit byte changed one of them before it was read, and the device contents are as
      dumped always. The emptiness test fails only if the exit path was used before it. Before the
      handle replay has ended no byte of a live request is taken, and what the client wrote meanwhile
      is all still in the ring, in order. */
  lemma AttachIsConsistent(c: Plan, s: State, actions: seq<Action>)
    requires PlanOk(c) && Parked(c, s)
    ensures var t := Exec(c, s, actions);
            && InBounds(c, t)
            && (t.server.Opening? || t.server.Reading? ==> !t.client.InCall?)
            && (Started(t.server) ==> t.raw == s.reply[..c.raw])
            && (Started(t.server) ==> (t.got == At(s.buf, c.locked) <==> Unhit(c, s.buf, Exits(c, s, actions))))
            && (t.server.Dead? ==> ByeBytes(t.client) > 0)
            && (!t.server.Serving? ==> t.taken == [])
            && t.taken + Stored(t.buf, t.head, t.tail) == t.sent
  {
    hide Exits, Exec, Safe, LogOk, Marked, Read, Unhit, Stored, At;
    var t := Exec(c, s, actions);
    RunKeeps(c, s, actions);
    ReplyIsKept(c, s, actions);
    if Started(t.server) { ReadExactly(c, s.buf, t.got, Exits(c, s, actions)); }
  }

  /** In particular they are as dumped in every run in which the client does not exit. */
  lemma {:induction false} NoExitNoHit(c: Plan, s: State, actions: seq<Action>)
    requires PlanOk(c) && Parked(c, s) && forall i :: 0 <= i < |actions| ==> !actions[i].Bye?
    ensures ByeBytes(Exec(c, s, actions).client) == 0 && forall i :: 0 <= i < |Exits(c, s, actions)| ==> Exits(c, s, actions)[i] == 0
    ensures Unhit(c, s.buf, Exits(c, s, actions)) && !Exec(c, s, actions).server.Dead?
  {
    if actions != [] {
      var front := actions[..|actions| - 1];
      assert forall i :: 0 <= i < |front| ==> front[i] == actions[i];
      NoExitNoHit(c, s, front);
      hide Exec;
      NoByeStep(c, Exec(c, s, front), actions[|actions| - 1]);
      ExecLast(c, s, actions);
    }
    DeadMeansExit(c, s, actions);
  }

  lemma ExecLast(c: Plan, s: State, actions: seq<Action>)
    requires actions != []
    ensures Exec(c, s, actions) == Step(c, Exec(c, s, actions[..|actions| - 1]), actions[|actions| - 1])
  {
  }

  lemma NoByeStep(c: Plan, s: State, a: Action)
    requires !a.Bye? && ByeBytes(s.client) == 0
    ensures ByeBytes(Step(c, s, a).client) == 0
  {
    hide ServeStep;
    if a.Serve? && InBounds(c, s) { ServeKeepsClient(c, s); }
  }

  lemma ServeKeepsClient(c: Plan, s: State)
    requires InBounds(c, s)
    ensures ServeStep(c, s).client == s.client
  {
  }

  lemma DeadMeansExit(c: Plan, s: State, actions: seq<Action>)
    requires PlanOk(c) && Parked(c, s)
    ensures Exec(c, s, actions).server.Dead? ==> ByeBytes(Exec(c, s, actions).client) > 0
  {
    hide Exec, Exits, Read, Stored, LogOk, Locked;
    RunKeeps(c, s, actions);
  }

  /** And if layout, order and contents are safe the replayed log is the dumped one. */
  lemma SafeLogIsIntact(c: Plan, s: State, actions: seq<Action>)
    requires PlanOk(c) && Parked(c, s) && Safe(c, s.buf) && c.needed
    ensures var t := Exec(c, s, actions); t.server.Replaying? || t.server.Serving? ==> t.log == At(s.buf, c.handles)
  {
    hide Exec, Exits, Read, Stored, Safe, Locked, At;
    RunKeeps(c, s, actions);
    AtLength(s.buf, c.handles);
  }

  // ---------------------------------------------------------------- the layouts that are not safe

  function Repeat(a: Action, n: nat): seq<Action> { seq(n, _ => a) }

  lemma {:induction false} ExecJoin(c: Plan, s: State, a: seq<Action>, b: seq<Action>)
    ensures Exec(c, s, a + b) == Exec(c, Exec(c, s, a), b)
  {
    hide Step;
    if b == [] {
      assert a + b == a;
    } else {
      ExecJoin(c, s, a, b[..|b| - 1]);
      assert (a + b)[..|a + b| - 1] == a + b[..|b| - 1];
    }
  }

  lemma ExecOne(c: Plan, s: State, a: Action)
    ensures Exec(c, s, [a]) == Step(c, s, a)
  {
    assert Exec(c, s, [a][..0]) == s;
  }

  lemma ExecRepeat(c: Plan, s: State, a: Action, n: nat)
    ensures Exec(c, s, Repeat(a, 0)) == s
    ensures Exec(c, s, Repeat(a, n + 1)) == Step(c, Exec(c, s, Repeat(a, n)), a)
  {
    hide Step;
    assert Repeat(a, n + 1)[..n] == Repeat(a, n);
  }

  lemma ReadsOne(c: Plan, s: State, n: nat)
    requires InBounds(c, s) && s.server.Reading? && n < |c.locked|
    ensures Step(c, s.(got := At(s.buf, c.locked)[..n]), Serve) == s.(got := At(s.buf, c.locked)[..n + 1])
  {
    var all := At(s.buf, c.locked);
    assert all[..n] + [all[n]] == all[..n + 1];
  }

  /** The worker reads the locked sections. */
  lemma {:induction false} ReadsLocked(c: Plan, s: State, n: nat)
    requires InBounds(c, s) && s.server.Reading? && s.got == [] && n <= |c.locked|
    ensures Exec(c, s, Repeat(Serve, n)) == s.(got := At(s.buf, c.locked)[..n])
  {
    hide Exec, Repeat, Step, At;
    AtLength(s.buf, c.locked);
    if n > 0 {
      ReadsLocked(c, s, n - 1);
      ExecRepeat(c, s, Serve, n - 1);
      ReadsOne(c, s, n - 1);
    } else {
      ExecRepeat(c, s, Serve, 0);
      assert At(s.buf, c.locked)[..0] == [];
    }
  }

  /** The worker reads the device contents. */
  lemma {:induction false} ReadsRaw(c: Plan, s: State, n: nat)
    requires InBounds(c, s) && s.server.Reading? && |s.got| == |c.locked| && s.raw == [] && n <= c.raw
    ensures Exec(c, s, Repeat(Serve, n)) == s.(raw := s.reply[..n])
  {
    hide Exec, Repeat;
    if n > 0 {
      ReadsRaw(c, s, n - 1);
      ExecRepeat(c, s, Serve, n - 1);
      assert s.reply[..n - 1] + [s.reply[n - 1]] == s.reply[..n];
    } else {
      ExecRepeat(c, s, Serve, 0);
    }
  }

  /** Ready to copy the log: after the unlock, or before it if that is the order. */
  ghost predicate ReadyToCopy(c: Plan, s: State) {
    && InBounds(c, s) && c.needed && s.log == [] && |s.got| == |c.locked| && |s.raw| == c.raw
    && (s.server.Copying? || (s.server.Reading? && c.copyFirst))
  }

  lemma CopiesOne(c: Plan, s: State, n: nat)
    requires ReadyToCopy(c, s) && n < |c.handles|
    ensures Step(c, s.(log := At(s.buf, c.handles)[..n]), Serve) == s.(log := At(s.buf, c.handles)[..n + 1])
  {
    var all := At(s.buf, c.handles);
    assert all[..n] + [all[n]] == all[..n + 1];
  }

  /** The worker copies the log as the memory now is. */
  lemma {:induction false} CopiesLog(c: Plan, s: State, n: nat)
    requires ReadyToCopy(c, s) && n <= |c.handles|
    ensures Exec(c, s, Repeat(Serve, n)) == s.(log := At(s.buf, c.handles)[..n])
  {
    hide Exec, Repeat, Step, At;
    AtLength(s.buf, c.handles);
    if n > 0 {
      CopiesLog(c, s, n - 1);
      ExecRepeat(c, s, Serve, n - 1);
      CopiesOne(c, s, n - 1);
    } else {
      ExecRepeat(c, s, Serve, 0);
      assert At(s.buf, c.handles)[..0] == [];
    }
  }

  /** From the opened snapshot to the point where the log is copied or the lock is cleared. */
  lemma ReadsAll(c: Plan, s: State) returns (actions: seq<Action>)
    requires InBounds(c, s) && s.server.Reading? && s.got == s.raw == s.log == []
    ensures Exec(c, s, actions) == s.(got := At(s.buf, c.locked), raw := s.reply[..c.raw])
  {
    var all := At(s.buf, c.locked);
    assert all[..|c.locked|] == all;
    hide Exec, Repeat, At;
    AtLength(s.buf, c.locked);
    ReadsLocked(c, s, |c.locked|);
    var t := s.(got := all);
    ReadsRaw(c, t, c.raw);
    actions := Repeat(Serve, |c.locked|) + Repeat(Serve, c.raw);
    ExecJoin(c, s, Repeat(Serve, |c.locked|), Repeat(Serve, c.raw));
  }

  /** With the log copied, one or two steps start the replay. */
  lemma StartsReplay(c: Plan, s: State)
    requires InBounds(c, s) && |s.log| == |c.handles| && |s.got| == |c.locked| && |s.raw| == c.raw && (s.server.Copying? || s.server.Reading?)
    ensures var t := if s.server.Copying? then Step(c, s, Serve) else Step(c, Step(c, s, Serve), Serve);
            t.server.Replaying? && t.log == s.log
  {
  }

  /** Copying the log off this memory, and starting the replay. */
  lemma ReplaysMemory(c: Plan, s: State) returns (actions: seq<Action>)
    requires ReadyToCopy(c, s)
    ensures var t := Exec(c, s, actions); t.server.Replaying? && t.log == At(s.buf, c.handles)
  {
    hide Exec, Repeat, At, Step;
    AtLength(s.buf, c.handles);
    var all := At(s.buf, c.handles);
    assert all[..|all|] == all;
    CopiesLog(c, s, |c.handles|);
    var t := s.(log := all);
    StartsReplay(c, t);
    actions := Repeat(Serve, |c.handles|) + [Serve];
    ExecJoin(c, s, Repeat(Serve, |c.handles|), [Serve]);
    ExecOne(c, t, Serve);
    if s.server.Reading? {
      ExecJoin(c, s, actions, [Serve]);
      ExecOne(c, Step(c, t, Serve), Serve);
      actions := actions + [Serve];
    }
  }

  /** The first `n` positions from `home` on hold `b`. */
  ghost predicate Filled(c: Plan, b: Byte, n: nat, s: State) {
    && InBounds(c, s) && s.head == c.home && n < c.cap && s.tail == Shift(c, n)
    && forall p :: 0 <= p < c.cap && Ahead(c, p) < n ==> s.buf[p] == b
  }

  lemma FillsOne(c: Plan, b: Byte, n: nat, s: State)
    requires Filled(c, b, n, s) && n + 1 < c.cap
    ensures Room(c, s) && Filled(c, b, n + 1, Put(c, s, b))
  {
    assert Room(c, s);
    hide IsFull;
  }

  /** A client in a call writes the same byte over and over. */
  lemma {:induction false} Fills(c: Plan, s: State, b: Byte, n: nat)
    requires Filled(c, b, 0, s) && s.client.InCall? && n < c.cap
    ensures var t := Exec(c, s, Repeat(Write(b), n));
            Filled(c, b, n, t) && t.client.InCall? && t == s.(buf := t.buf, tail := t.tail, sent := t.sent)
  {
    hide Filled, Exec, Repeat, IsFull;
    if n > 0 {
      Fills(c, s, b, n - 1);
      ExecRepeat(c, s, Write(b), n - 1);
      FilledInBounds(c, b, n - 1, Exec(c, s, Repeat(Write(b), n - 1)));
      FillsOne(c, b, n - 1, Exec(c, s, Repeat(Write(b), n - 1)));
    } else {
      ExecRepeat(c, s, Write(b), 0);
    }
  }

  lemma FilledInBounds(c: Plan, b: Byte, n: nat, s: State)
    requires Filled(c, b, n, s)
    ensures InBounds(c, s)
  {
  }

  lemma FilledByAny(c: Plan, b: Byte, n: nat, s: State, client: Client)
    requires Filled(c, b, n, s)
    ensures Filled(c, b, n, s.(client := client))
  {
  }

  /** An exiting client writes its message. */
  lemma {:induction false} WritesBye(c: Plan, s: State, n: nat)
    requires Filled(c, BYE_BYTE, 0, s) && s.client.Out? && n < c.cap && n <= MESSAGE
    ensures var t := Exec(c, s, Repeat(Bye, n));
            && Filled(c, BYE_BYTE, n, t) && !t.client.InCall? && ByeBytes(t.client) == n
            && t == s.(buf := t.buf, tail := t.tail, sent := t.sent, client := t.client)
  {
    hide Filled, Exec, Repeat, IsFull;
    if n > 0 {
      WritesBye(c, s, n - 1);
      ExecRepeat(c, s, Bye, n - 1);
      FilledInBounds(c, BYE_BYTE, n - 1, Exec(c, s, Repeat(Bye, n - 1)));
      FillsOne(c, BYE_BYTE, n - 1, Exec(c, s, Repeat(Bye, n - 1)));
      FilledByAny(c, BYE_BYTE, n, Put(c, Exec(c, s, Repeat(Bye, n - 1)), BYE_BYTE), Exiting(n));
    } else {
      ExecRepeat(c, s, Bye, 0);
    }
  }

  ghost predicate Overwritten(c: Plan, was: seq<Byte>, s: State)
    requires PlanOk(c) && |was| == c.cap
  {
    ReadyToCopy(c, s) && At(s.buf, c.handles) != At(was, c.handles)
  }

  lemma Differs(was: seq<Byte>, buf: seq<Byte>, positions: seq<nat>, i: nat)
    requires |was| == |buf| && (forall i :: 0 <= i < |positions| ==> positions[i] < |buf|) && i < |positions|
    requires buf[positions[i]] != was[positions[i]]
    ensures At(buf, positions) != At(was, positions)
  {
    assert At(buf, positions)[i] != At(was, positions)[i];
  }

  lemma FilledAt(c: Plan, b: Byte, n: nat, s: State, p: nat)
    requires Filled(c, b, n, s) && p < c.cap && Ahead(c, p) < n
    ensures s.buf[p] == b
  {
  }

  /** Copied before the unlock, the log is overwritten by an exit under the lock. */
  lemma ExitOverwrites(c: Plan, s: State, i: nat) returns (actions: seq<Action>)
    requires PlanOk(c) && Parked(c, s) && c.needed && c.copyFirst && i < |c.handles|
    requires Ahead(c, c.handles[i]) < MESSAGE && c.handles[i] != Unwritable(c) && s.buf[c.handles[i]] != BYE_BYTE
    ensures Overwritten(c, s.buf, Exec(c, s, actions))
  {
    var n := Ahead(c, c.handles[i]) + 1;
    assert n < c.cap;
    var s1 := s.(server := Reading);
    assert Filled(c, BYE_BYTE, 0, s1) && Step(c, s, Serve) == s1;
    hide Exec, Repeat, At, Filled;
    ExecOne(c, s, Serve);
    WritesBye(c, s1, n);
    var s2 := Exec(c, s1, Repeat(Bye, n));
    ExecJoin(c, s, [Serve], Repeat(Bye, n));
    FilledInBounds(c, BYE_BYTE, n, s2);
    FilledAt(c, BYE_BYTE, n, s2, c.handles[i]);
    var readout := ReadsAll(c, s2);
    ExecJoin(c, s, [Serve] + Repeat(Bye, n), readout);
    actions := [Serve] + Repeat(Bye, n) + readout;
    AtLength(s2.buf, c.locked);
    Differs(s.buf, s2.buf, c.handles, i);
  }

  /** Copied after the unlock, it is overwritten by a request. */
  lemma RequestOverwrites(c: Plan, s: State, i: nat) returns (actions: seq<Action>)
    requires PlanOk(c) && Parked(c, s) && c.needed && !c.copyFirst && i < |c.handles| && c.handles[i] != Unwritable(c)
    ensures Overwritten(c, s.buf, Exec(c, s, actions))
  {
    var n := Ahead(c, c.handles[i]) + 1;
    assert n < c.cap;
    var was: nat := s.buf[c.handles[i]];
    var b: Byte := if was == 0 then 1 else 0;
    var s1 := s.(server := Reading);
    assert Step(c, s, Serve) == s1;
    hide Exec, Repeat, At, Filled;
    ExecOne(c, s, Serve);
    var readout := ReadsAll(c, s1);
    ExecJoin(c, s, [Serve], readout);
    var s2 := s1.(got := At(s.buf, c.locked), raw := s.reply[..c.raw]);
    AtLength(s.buf, c.locked);
    UnlocksAndEnters(c, s2);
    var s3 := s2.(disabled := false, server := Copying, inUse := true, client := InCall);
    ExecJoin(c, s, [Serve] + readout, [Serve, Enter]);
    EmptyFilled(c, b, s3);
    Fills(c, s3, b, n);
    var s4 := Exec(c, s3, Repeat(Write(b), n));
    ExecJoin(c, s, [Serve] + readout + [Serve, Enter], Repeat(Write(b), n));
    actions := [Serve] + readout + [Serve, Enter] + Repeat(Write(b), n);
    FilledInBounds(c, b, n, s4);
    FilledAt(c, b, n, s4, c.handles[i]);
    Differs(s.buf, s4.buf, c.handles, i);
  }

  lemma EmptyFilled(c: Plan, b: Byte, s: State)
    requires InBounds(c, s) && s.head == s.tail == c.home
    ensures Filled(c, b, 0, s)
  {
  }

  lemma UnlocksAndEnters(c: Plan, s: State)
    requires InBounds(c, s) && s.server.Reading? && |s.got| == |c.locked| && |s.raw| == c.raw && !c.copyFirst && s.client.Out? && !s.inUse
    ensures Exec(c, s, [Serve, Enter]) == s.(disabled := false, server := Copying, inUse := true, client := InCall)
  {
    assert [Serve, Enter][..1] == [Serve];
    ExecOne(c, s, Serve);
  }

  /** If it is not safe, some interleaving replays a log that is not the dumped one. */
  lemma UnsafeLogIsCorrupted(c: Plan, s: State) returns (actions: seq<Action>)
    requires PlanOk(c) && Parked(c, s) && !Safe(c, s.buf)
    ensures var t := Exec(c, s, actions); t.server.Replaying? && t.log != At(s.buf, c.handles)
  {
    var i: nat :| i < |c.handles| && c.handles[i] != Unwritable(c)
                  && !(c.copyFirst && (Ahead(c, c.handles[i]) >= MESSAGE || s.buf[c.handles[i]] == BYE_BYTE));
    hide Exec, At;
    var run: seq<Action>;
    if c.copyFirst { run := ExitOverwrites(c, s, i); } else { run := RequestOverwrites(c, s, i); }
    var rest := ReplaysMemory(c, Exec(c, s, run));
    ExecJoin(c, s, run, rest);
    actions := run + rest;
  }

  ghost predicate Intact(c: Plan, s: State, t: State)
    requires PlanOk(c) && |s.buf| == c.cap
  {
    t.server.Replaying? || t.server.Serving? ==> t.log == At(s.buf, c.handles)
  }

  /** Exactly: the replayed log is the dumped one in every interleaving, if and only if it is not
      needed from the snapshot, or each of its bytes lies on the one place a full ring leaves
      unwritten, or the log is copied before unlocking and no exit byte can change it. */
  lemma LogIsIntactExactly(c: Plan, s: State)
    requires PlanOk(c) && Parked(c, s)
    ensures Safe(c, s.buf) <==> !c.needed || forall actions :: Intact(c, s, Exec(c, s, actions))
  {
    hide Exec, At;
    if Safe(c, s.buf) && c.needed {
      forall actions ensures Intact(c, s, Exec(c, s, actions)) { SafeLogIsIntact(c, s, actions); }
    }
    if !Safe(c, s.buf) {
      var actions := UnsafeLogIsCorrupted(c, s);
      assert !Intact(c, s, Exec(c, s, actions));
    }
  }

  /** And the locked sections can be hit: a run in which the exit comes between the emptiness test and
      the reading. */
  lemma ExitHitsSnapshot(c: Plan, s: State, i: nat) returns (actions: seq<Action>)
    requires PlanOk(c) && Parked(c, s) && i < |c.locked|
    requires Ahead(c, c.locked[i]) < MESSAGE && c.locked[i] != Unwritable(c) && s.buf[c.locked[i]] != BYE_BYTE
    ensures var t := Exec(c, s, actions); |t.got| == |c.locked| && t.got != At(s.buf, c.locked)
  {
    var n := Ahead(c, c.locked[i]) + 1;
    assert n < c.cap;
    var s1 := s.(server := Reading);
    assert Filled(c, BYE_BYTE, 0, s1) && Step(c, s, Serve) == s1;
    hide Exec, Repeat, At, Filled;
    ExecOne(c, s, Serve);
    WritesBye(c, s1, n);
    var s2 := Exec(c, s1, Repeat(Bye, n));
    ExecJoin(c, s, [Serve], Repeat(Bye, n));
    FilledInBounds(c, BYE_BYTE, n, s2);
    FilledAt(c, BYE_BYTE, n, s2, c.locked[i]);
    var readout := ReadsAll(c, s2);
    ExecJoin(c, s, [Serve] + Repeat(Bye, n), readout);
    actions := [Serve] + Repeat(Bye, n) + readout;
    AtLength(s2.buf, c.locked);
    Differs(s.buf, s2.buf, c.locked, i);
  }

  // ---------------------------------------------------------------- on the snapshot's own layout

  function Region(from: nat, len: nat): seq<nat> { seq(len, i requires 0 <= i < len => from + i) }

  /** With the log in one piece, as the snapshot lays it out, copied after unlocking: only an empty
      log, or a single byte in that one place, is safe. */
  lemma OnlyTinyLogsAreSafe(c: Plan, was: seq<Byte>, from: nat, len: nat)
    requires PlanOk(c) && |was| == c.cap && c.handles == Region(from, len) && c.needed && !c.copyFirst
    ensures Safe(c, was) <==> len == 0 || (len == 1 && from == Unwritable(c))
  {
    assert len > 0 ==> c.handles[0] == from;
    assert len > 1 ==> c.handles[1] == from + 1;
  }

  lemma RegionIs(buf: seq<Byte>, from: nat, len: nat)
    requires from + len <= |buf|
    ensures |Region(from, len)| == len && forall i :: 0 <= i < len ==> Region(from, len)[i] < |buf|
    ensures At(buf, Region(from, len)) == buf[from..from + len]
  {
  }

  lemma AtJoins(buf: seq<Byte>, xs: seq<nat>, ys: seq<nat>)
    requires (forall i :: 0 <= i < |xs| ==> xs[i] < |buf|) && (forall i :: 0 <= i < |ys| ==> ys[i] < |buf|)
    ensures forall i :: 0 <= i < |xs + ys| ==> (xs + ys)[i] < |buf|
    ensures At(buf, xs + ys) == At(buf, xs) + At(buf, ys)
  {
  }

  /** Where `read_snapshot` finds the header and the sections of an image. */
  function PlanFor(m: Snap.Image, cap: nat, home: nat, needed: bool, copyFirst: bool): Plan {
    var k := Snap.HEADER + |m.kernels|;
    var l := k + |m.handles|;
    Plan(cap, home, Region(0, k) + Region(l, |m.meta|), Region(k, |m.handles|), |m.raw|, needed, copyFirst)
  }

  /** The two rings as `dump_state` leaves them for this image. */
  ghost predicate Overlaid(m: Snap.Image, padding: seq<Byte>, c: Plan, s: State) {
    && Snap.Wide(Snap.HeaderFor(m)) && |padding| == 7 && Parked(c, s) && c.home < c.cap
    && Snap.Body(m, padding) <= s.buf && m.raw <= s.reply
  }

  /** What an attach reads under the lock. */
  ghost function LockedPart(m: Snap.Image, padding: seq<Byte>): seq<Byte>
    requires Snap.Int32Fits(m.id)
  {
    Snap.HeaderBytes(Snap.HeaderFor(m), padding) + m.kernels + m.meta
  }

  lemma OverlaidSections(m: Snap.Image, padding: seq<Byte>, c: Plan, s: State)
    requires c == PlanFor(m, c.cap, c.home, c.needed, c.copyFirst) && Overlaid(m, padding, c, s)
    ensures PlanOk(c) && At(s.buf, c.locked) == LockedPart(m, padding) && At(s.buf, c.handles) == m.handles
  {
    hide Snap.HeaderBytes, At, Region;
    Snap.HeaderSize(Snap.HeaderFor(m), padding);
    var header := Snap.HeaderBytes(Snap.HeaderFor(m), padding);
    var behind := s.buf[|Snap.Body(m, padding)|..];
    assert s.buf == header + m.kernels + m.handles + m.meta + behind;
    Snap.CutFour(header, m.kernels, m.handles, m.meta, behind);
    var k := Snap.HEADER + |m.kernels|;
    var l := k + |m.handles|;
    assert s.buf[0..k] == header + m.kernels;
    RegionIs(s.buf, 0, k);
    RegionIs(s.buf, k, |m.handles|);
    RegionIs(s.buf, l, |m.meta|);
    AtJoins(s.buf, Region(0, k), Region(l, |m.meta|));
  }

  /** Main result on the program's own layout. Whatever the client does meanwhile, an attach reads the
      device contents that were dumped, and header, kernels and memory metadata exactly if no exit
      byte changed one of them before it was read. It replays the dumped handle log in every
      interleaving exactly if that is safe; as the program orders it, exactly if the log is not
      needed, is empty, or is one byte in the one place a full ring leaves unwritten. */
  lemma AttachReadsSnapshot(m: Snap.Image, padding: seq<Byte>, c: Plan, s: State)
    requires c == PlanFor(m, c.cap, c.home, c.needed, c.copyFirst) && Overlaid(m, padding, c, s)
    ensures PlanOk(c)
    ensures forall actions :: var t := Exec(c, s, actions); Started(t.server) ==>
              t.raw == m.raw && (t.got == LockedPart(m, padding) <==> Unhit(c, s.buf, Exits(c, s, actions)))
    ensures Safe(c, s.buf) <==>
            (!c.needed || forall actions :: var t := Exec(c, s, actions); t.server.Replaying? || t.server.Serving? ==> t.log == m.handles)
    ensures c.needed && !c.copyFirst ==>
              (Safe(c, s.buf) <==> m.handles == [] || (|m.handles| == 1 && Snap.HEADER + |m.kernels| == Unwritable(c)))
  {
    hide Exec, At, Exits, Unhit, LockedPart, Safe;
    OverlaidSections(m, padding, c, s);
    forall actions
      ensures var t := Exec(c, s, actions); Started(t.server) ==>
                t.raw == m.raw && (t.got == LockedPart(m, padding) <==> Unhit(c, s.buf, Exits(c, s, actions)))
    {
      AttachIsConsistent(c, s, actions);
    }
    LogIsIntactExactly(c, s);
    if c.needed && !c.copyFirst { OnlyTinyLogsAreSafe(c, s.buf, Snap.HEADER + |m.kernels|, |m.handles|); }
    IntactMeans(c, s, m.handles);
  }

  lemma IntactMeans(c: Plan, s: State, handles: seq<Byte>)
    requires PlanOk(c) && |s.buf| == c.cap && At(s.buf, c.handles) == handles
    ensures (forall actions :: Intact(c, s, Exec(c, s, actions))) <==>
            forall actions :: var t := Exec(c, s, actions); t.server.Replaying? || t.server.Serving? ==> t.log == handles
  {
    hide Exec, At;
  }
}
