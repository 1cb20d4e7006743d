/** An attach left alone by its client goes through, and afterwards the worker serves what the client
    writes. */
module AttachProgress {
  import opened Bytes
  import opened RingIndex
  import opened Attach

  // ---------------------------------------------------------------- the worker alone

  /** Everything read as it lies in memory, the lock cleared, the replay over. */
  ghost function Attached(c: Plan, s: State): State
    requires PlanOk(c) && |s.buf| == c.cap && c.raw <= |s.reply|
  {
    s.(disabled := false, server := Serving, got := At(s.buf, c.locked), raw := s.reply[..c.raw],
       log := if c.needed then At(s.buf, c.handles) else [])
  }

  lemma Opens(c: Plan, s: State)
    requires PlanOk(c) && Parked(c, s)
    ensures Exec(c, s, [Serve]) == s.(server := Reading)
  {
    ExecOne(c, s, Serve);
  }

  /** With the log copied or not needed: the lock is cleared and the vector takes over. */
  lemma Unlocks(c: Plan, s: State)
    requires InBounds(c, s) && s.server.Reading? && |s.got| == |c.locked| && |s.raw| == c.raw && (c.needed && c.copyFirst ==> |s.log| == |c.handles|)
    ensures Exec(c, s, [Serve]) == s.(disabled := false, server := Copying)
  {
    ExecOne(c, s, Serve);
  }

  lemma Replays(c: Plan, s: State)
    requires InBounds(c, s) && s.server.Copying? && (c.needed ==> |s.log| == |c.handles|)
    ensures Exec(c, s, [Serve, ReplayEnds]) == s.(server := Serving)
  {
    ExecOne(c, s, Serve);
    assert [Serve, ReplayEnds][..1] == [Serve];
  }

  lemma CopiesAll(c: Plan, s: State) returns (actions: seq<Action>)
    requires ReadyToCopy(c, s)
    ensures Exec(c, s, actions) == s.(log := At(s.buf, c.handles))
  {
    var all := At(s.buf, c.handles);
    AtLength(s.buf, c.handles);
    assert all[..|c.handles|] == all;
    CopiesLog(c, s, |c.handles|);
    actions := Repeat(Serve, |c.handles|);
  }

  /** Main result. The worker's own steps take a parked client's snapshot all the way to serving: header,
      kernels, metadata, device contents and, if it is needed, the handle log as they lie in memory,
      the client's lock cleared, and both ring positions where they were. */
  lemma AttachCompletes(c: Plan, s: State) returns (actions: seq<Action>)
    requires PlanOk(c) && Parked(c, s)
    ensures Exec(c, s, actions) == Attached(c, s)
  {
    hide Exec, At, Step;
    Opens(c, s);
    var t := s.(server := Reading);
    actions := [Serve];
    var more := ReadsAll(c, t);
    ExecJoin(c, s, actions, more);
    actions := actions + more;
    t := t.(got := At(s.buf, c.locked), raw := s.reply[..c.raw]);
    AtLength(s.buf, c.locked);
    AtLength(s.buf, c.handles);
    if c.needed && c.copyFirst {
      more := CopiesAll(c, t);
      ExecJoin(c, s, actions, more);
      actions := actions + more;
      t := t.(log := At(s.buf, c.handles));
    }
    Unlocks(c, t);
    ExecJoin(c, s, actions, [Serve]);
    actions := actions + [Serve];
    t := t.(disabled := false, server := Copying);
    if c.needed && !c.copyFirst {
      more := CopiesAll(c, t);
      ExecJoin(c, s, actions, more);
      actions := actions + more;
      t := t.(log := At(s.buf, c.handles));
    }
    Replays(c, t);
    ExecJoin(c, s, actions, [Serve, ReplayEnds]);
    actions := actions + [Serve, ReplayEnds];
  }

  // ---------------------------------------------------------------- serving

  lemma ServesOne(c: Plan, s: State)
    requires InBounds(c, s) && s.server.Serving? && s.head != s.tail
    ensures var t := Step(c, s, Serve);
            && t == s.(head := t.head, taken := t.taken) && InBounds(c, t)
            && Used(c.cap, t.head, t.tail) == Used(c.cap, s.head, s.tail) - 1
  {
  }

  lemma {:induction false} ServesRing(c: Plan, s: State) returns (actions: seq<Action>)
    requires InBounds(c, s) && s.server.Serving?
    ensures var t := Exec(c, s, actions); t == s.(head := t.head, taken := t.taken) && t.head == t.tail
    decreases Used(c.cap, s.head, s.tail)
  {
    hide Step, Exec;
    actions := [];
    if s.head != s.tail {
      ServesOne(c, s);
      var more := ServesRing(c, Step(c, s, Serve));
      ExecOne(c, s, Serve);
      ExecJoin(c, s, [Serve], more);
      actions := [Serve] + more;
    } else {
      ExecNothing(c, s);
    }
  }

  lemma ExecNothing(c: Plan, s: State)
    ensures Exec(c, s, []) == s
  {
  }

  /** Once an attach has come to serving, in whatever interleaving, the worker's own steps take all the
      client has written, in order. */
  lemma EverythingIsServed(c: Plan, s: State, actions: seq<Action>) returns (more: seq<Action>)
    requires PlanOk(c) && Parked(c, s) && Exec(c, s, actions).server.Serving?
    ensures var t, u := Exec(c, s, actions), Exec(c, s, actions + more);
            u == t.(head := t.tail, taken := t.sent)
  {
    hide Exec, Exits, At, Unhit;
    AttachIsConsistent(c, s, actions);
    more := ServesRing(c, Exec(c, s, actions));
    ExecJoin(c, s, actions, more);
    AttachIsConsistent(c, s, actions + more);
    var u := Exec(c, s, actions + more);
    assert u.taken + Stored(u.buf, u.head, u.tail) == u.taken;
  }

  // ---------------------------------------------------------------- a call after the attach

  /** An unlocked client can enter a call, write a byte while there is room, leave, and enter again. */
  lemma ClientGoesOn(c: Plan, s: State, b: Byte)
    requires PlanOk(c) && Parked(c, s) && c.cap > 1
    ensures var t := Exec(c, Attached(c, s), [Enter, Write(b), Leave]);
            && t.client.Out? && !t.inUse && !t.disabled && t.sent == [b] && t.head == c.home && t.tail == Next(c.cap, c.home)
  {
    hide At;
    var a := Attached(c, s);
    ExecOne(c, a, Enter);
    assert [Enter, Write(b)][..1] == [Enter];
    assert [Enter, Write(b), Leave][..2] == [Enter, Write(b)];
  }

  /** The exit message is procedure id -1 in four bytes, all of them 0xFF, and nothing after them. */
  lemma ExitMessageIs(c: Plan, s: State)
    requires PlanOk(c) && Parked(c, s) && c.cap > 4
    ensures Exec(c, s, [Bye, Bye, Bye, Bye]).sent == [0xFF, 0xFF, 0xFF, 0xFF]
    ensures Exec(c, s, [Bye, Bye, Bye, Bye, Bye]) == Exec(c, s, [Bye, Bye, Bye, Bye])
  {
    hide Exec, IsFull;
    EmptyFilled(c, BYE_BYTE, s);
    WritesBye(c, s, 4);
    assert Repeat(Bye, 4) == [Bye, Bye, Bye, Bye];
    SentBye(c, s, 4);
    ExecJoin(c, s, [Bye, Bye, Bye, Bye], [Bye]);
    ExecOne(c, Exec(c, s, [Bye, Bye, Bye, Bye]), Bye);
    assert [Bye, Bye, Bye, Bye] + [Bye] == [Bye, Bye, Bye, Bye, Bye];
  }

  lemma {:induction false} SentBye(c: Plan, s: State, n: nat)
    requires PlanOk(c) && Parked(c, s) && n < c.cap && n <= MESSAGE
    ensures Exec(c, s, Repeat(Bye, n)).sent == seq(n, _ => 0xFF as Byte)
  {
    hide Exec, Repeat, IsFull, Filled;
    ExecRepeat(c, s, Bye, 0);
    if n > 0 {
      SentBye(c, s, n - 1);
      EmptyFilled(c, BYE_BYTE, s);
      WritesBye(c, s, n - 1);
      ExecRepeat(c, s, Bye, n - 1);
      var t := Exec(c, s, Repeat(Bye, n - 1));
      FilledInBounds(c, BYE_BYTE, n - 1, t);
      FillsOne(c, BYE_BYTE, n - 1, t);
    }
  }
}
