/** A checkpoint of a worker with any number of threads, dead ones among them, can always be taken: from
    every reachable state without a request under way some schedule brings every thread to rest, through
    both barriers and out again. */
module CheckpointCompletes {
  import opened Sums
  import opened Quiesce
  import opened Checkpoint
  import opened CheckpointEnds
  import opened CheckpointProgress

  // ---------------------------------------------------------------- through the barriers

  /** Moves a parked thread has still to make. */
  function Rank(t: Thread): nat {
    match t.server
    case Entered => 6
    case Wait1(_) => 5
    case Dump => 4
    case Dumped => 3
    case Wait2(_) => 2
    case Unlock => 1
    case _ => 0
  }

  /** Moves the controller has still to make. */
  function Left(c: Controller): nat {
    match c
    case Idle => 0
    case Locking(_) => 8
    case Arriving1 => 7
    case CWait1(_) => 6
    case DumpKernels => 5
    case DumpMemory => 4
    case Arriving2 => 3
    case CWait2(_) => 2
    case Finishing => 1
  }

  ghost function Measure(s: State): nat { Sum(s.threads, Rank) + Left(s.ctl) }

  /** All members have come to the checkpoint. */
  ghost predicate Gathered(s: State) {
    && Inv(s) && !s.ctl.Idle? && !s.ctl.Locking?
    && (s.barrier.gen == 0 ==> forall i :: 0 <= i < |s.threads| && s.threads[i].member ==> InCheckpoint(s.threads[i].server))
  }

  /** Where a mode leaves a worker thread. */
  function Released(mode: Mode): Server { if mode == LeaveRunning then Receive(false, 0, false) else Stopped }

  /** A thread since it came to the checkpoint as `b`: only the checkpoint has moved it. */
  ghost predicate Follows(t: Thread, b: Thread, mode: Mode, device: nat) {
    if !b.member then t == b
    else
      && t == b.(server := t.server, disabled := t.disabled, handleDump := t.handleDump, deviceDump := t.deviceDump)
      && (InCheckpoint(t.server) || (t.server == Released(mode) && t.disabled == (mode == Detach)))
      && (t.server.Dumped? || t.server.Wait2? || t.server.Unlock? || !InCheckpoint(t.server) ==>
            t.handleDump == b.done && t.deviceDump == device)
  }

  /** The controller's own dumps, as far as they have been taken. */
  ghost predicate Recorded(ctl: Controller, mode: Mode, device: nat, kernels: nat, memory: nat) {
    mode != Detach ==>
      && (ctl.DumpMemory? || ctl.Arriving2? || ctl.CWait2? || ctl.Finishing? || ctl.Idle? ==> kernels == device)
      && (ctl.Arriving2? || ctl.CWait2? || ctl.Finishing? || ctl.Idle? ==> memory == device)
  }

  ghost predicate AllFollow(s: State, base: seq<Thread>, mode: Mode, device: nat) {
    && s.mode == mode && s.device == device && |s.threads| == |base|
    && Recorded(s.ctl, mode, device, s.kernelDump, s.memoryDump)
    && forall i :: 0 <= i < |base| ==> Follows(s.threads[i], base[i], mode, device)
  }

  /** A parked thread that waits for nothing. */
  ghost predicate Movable(s: State, i: nat) {
    && i < |s.threads| && s.threads[i].member
    && var sv := s.threads[i].server;
       sv.Entered? || (sv.Wait1? && sv.gen != s.barrier.gen) || sv.Dump? || sv.Dumped? || (sv.Wait2? && sv.gen != s.barrier.gen) || sv.Unlock?
  }

  /** A move of a parked thread, as far as the checkpoint sees it. */
  ghost predicate MovedOn(s: State, i: nat, b: Thread, mode: Mode, device: nat)
    requires i < |s.threads|
  {
    var t := Step(s, ServerMoves(i, 0));
    && |t.threads| == |s.threads| && t.ctl == s.ctl && t.threads == s.threads[i := t.threads[i]] && Rank(t.threads[i]) < Rank(s.threads[i])
    && t.device == s.device && t.mode == s.mode && t.barrier.gen >= s.barrier.gen
    && t.kernelDump == s.kernelDump && t.memoryDump == s.memoryDump
    && Follows(t.threads[i], b, mode, device)
    && (t.barrier.gen == 0 ==> InCheckpoint(t.threads[i].server))
  }

  lemma ArrivalMoves(s: State, i: nat, b: Thread)
    requires i < |s.threads| && s.threads[i].member && !s.ctl.Idle? && (s.threads[i].server.Entered? || s.threads[i].server.Dumped?)
    requires Follows(s.threads[i], b, s.mode, s.device)
    ensures MovedOn(s, i, b, s.mode, s.device)
  {
  }

  lemma PlainMoves(s: State, i: nat, b: Thread)
    requires Movable(s, i) && !s.threads[i].server.Entered? && !s.threads[i].server.Dumped?
    requires s.threads[i].server.Unlock? ==> s.barrier.gen == 2 && s.threads[i].disabled
    requires s.threads[i].server.Wait1? ==> s.barrier.gen == 1
    requires s.threads[i].server.Dump? ==> s.threads[i].done == b.done && s.barrier.gen == 1
    requires Follows(s.threads[i], b, s.mode, s.device)
    ensures MovedOn(s, i, b, s.mode, s.device)
  {
  }

  lemma ThreadMoves(s: State, i: nat, base: seq<Thread>, mode: Mode, device: nat)
    requires Inv(s) && !s.ctl.Idle? && Movable(s, i) && AllFollow(s, base, mode, device)
    ensures MovedOn(s, i, base[i], mode, device)
  {
    assert PhaseOk(s.threads[i], true, s.barrier.gen, s.device);
    assert Follows(s.threads[i], base[i], mode, device);
    assert ThreadInv(s.threads[i]);
    hide Inv, ThreadInv, AllFollow, MovedOn;
    ParkedIsQuiet(s.threads[i]);
    if s.threads[i].server.Entered? || s.threads[i].server.Dumped? { ArrivalMoves(s, i, base[i]); } else { PlainMoves(s, i, base[i]); }
  }

  /** One such move brings the checkpoint nearer its end. */
  lemma ThreadAdvances(s: State, i: nat, base: seq<Thread>, mode: Mode, device: nat)
    requires Gathered(s) && Movable(s, i) && AllFollow(s, base, mode, device)
    ensures var t := Step(s, ServerMoves(i, 0));
            Gathered(t) && AllFollow(t, base, mode, device) && Measure(t) < Measure(s)
  {
    ThreadMoves(s, i, base, mode, device);
    StepKeeps(s, ServerMoves(i, 0));
    hide Inv, Step, Follows, Movable;
    var t := Step(s, ServerMoves(i, 0));
    SumUpdate(s.threads, Rank, i, t.threads[i]);
  }

  /** The controller waits for nothing. */
  ghost predicate ControllerMovable(s: State) {
    match s.ctl
    case CWait1(g) => g != s.barrier.gen
    case CWait2(g) => g != s.barrier.gen
    case Finishing => forall t :: t in s.threads ==> !InCheckpoint(t.server)
    case _ => true
  }

  lemma ControllerAdvances(s: State, base: seq<Thread>, mode: Mode, device: nat)
    requires Gathered(s) && ControllerMovable(s) && AllFollow(s, base, mode, device)
    ensures var t := Step(s, ControllerMoves);
            && t.threads == s.threads && AllFollow(t, base, mode, device) && Measure(t) < Measure(s)
            && (t.ctl.Idle? <==> s.ctl.Finishing?) && (!t.ctl.Idle? ==> Gathered(t))
  {
    StepKeeps(s, ControllerMoves);
    ControllerMovesOn(s);
    hide Inv, Step, Follows;
  }

  lemma ControllerMovesOn(s: State)
    requires Gathered(s) && ControllerMovable(s)
    ensures var t := Step(s, ControllerMoves);
            && t.threads == s.threads && t.mode == s.mode && t.device == s.device && t.barrier.gen >= s.barrier.gen
            && Left(t.ctl) < Left(s.ctl) && !t.ctl.Locking? && (t.ctl.Idle? <==> s.ctl.Finishing?)
            && (Recorded(s.ctl, s.mode, s.device, s.kernelDump, s.memoryDump) ==>
                  Recorded(t.ctl, t.mode, t.device, t.kernelDump, t.memoryDump))
  {
    hide ThreadsOk, CountOk, CutOk, Sum;
  }

  /** While the controller waits at a barrier, some member has not arrived there. */
  lemma SomeoneIsMissing(s: State) returns (i: nat)
    requires Inv(s) && !s.ctl.Idle?
    requires (s.barrier.gen == 0 && s.ctl == CWait1(0)) || (s.barrier.gen == 1 && s.ctl == CWait2(1))
    ensures i < |s.threads| && s.threads[i].member && !HasArrived(s.barrier.gen, s.threads[i].server)
  {
    hide ThreadsOk, CutOk, ControllerOk;
    if forall j :: 0 <= j < |s.threads| ==> Arrived(s.barrier.gen)(s.threads[j]) == Members(s.threads[j]) {
      SumPointwise(s.threads, Arrived(s.barrier.gen), s.threads, Members);
      assert false;
    }
    i :| 0 <= i < |s.threads| && Arrived(s.barrier.gen)(s.threads[i]) != Members(s.threads[i]);
  }

  lemma MissingIsMovable(s: State, i: nat)
    requires Gathered(s) && i < |s.threads| && s.threads[i].member && !HasArrived(s.barrier.gen, s.threads[i].server)
    requires s.barrier.gen == 0 || s.barrier.gen == 1
    ensures Movable(s, i)
  {
    assert PhaseOk(s.threads[i], true, s.barrier.gen, s.device);
    hide Inv, ThreadInv;
  }

  lemma LeavingIsMovable(s: State, i: nat)
    requires Gathered(s) && i < |s.threads| && InCheckpoint(s.threads[i].server) && s.barrier.gen == 2
    ensures Movable(s, i)
  {
    assert PhaseOk(s.threads[i], true, s.barrier.gen, s.device);
    hide Inv, ThreadInv;
  }

  lemma ControllerWhere(s: State)
    requires Gathered(s)
    ensures s.barrier.gen <= 2
    ensures s.ctl.CWait1? ==> s.ctl == CWait1(0) && s.barrier.gen <= 1
    ensures s.ctl.CWait2? ==> s.ctl == CWait2(1) && s.barrier.gen >= 1
    ensures s.ctl.Finishing? ==> s.barrier.gen == 2
  {
    hide ThreadsOk, CountOk, CutOk;
  }

  /** Somebody can always move: the checkpoint gets nearer its end. */
  lemma SomeMove(s: State, base: seq<Thread>, mode: Mode, device: nat) returns (a: Action)
    requires Gathered(s) && AllFollow(s, base, mode, device)
    ensures var t := Step(s, a);
            && AllFollow(t, base, mode, device) && Measure(t) < Measure(s)
            && (!t.ctl.Idle? ==> Gathered(t))
            && (t.ctl.Idle? ==> forall u :: u in t.threads ==> !InCheckpoint(u.server))
  {
    hide Step, Movable, AllFollow, Measure;
    ControllerWhere(s);
    if ControllerMovable(s) {
      ControllerAdvances(s, base, mode, device);
      a := ControllerMoves;
    } else {
      var i: nat;
      if s.ctl.Finishing? {
        var t :| t in s.threads && InCheckpoint(t.server);
        i :| 0 <= i < |s.threads| && s.threads[i] == t;
        LeavingIsMovable(s, i);
      } else {
        i := SomeoneIsMissing(s);
        MissingIsMovable(s, i);
      }
      ThreadAdvances(s, i, base, mode, device);
      a := ServerMoves(i, 0);
    }
  }

  /** Once all members have come to the checkpoint, some schedule completes it. */
  lemma {:induction false} Completes(actions: seq<Action>, base: seq<Thread>, mode: Mode, device: nat) returns (r: seq<Action>)
    requires Gathered(Exec(actions)) && AllFollow(Exec(actions), base, mode, device)
    ensures actions <= r && Exec(r).ctl.Idle? && AllFollow(Exec(r), base, mode, device)
    ensures forall u :: u in Exec(r).threads ==> !InCheckpoint(u.server)
    decreases Measure(Exec(actions))
  {
    hide Exec, Step, Gathered, AllFollow, Measure;
    var a := SomeMove(Exec(actions), base, mode, device);
    ExecAppend(actions, a);
    r := actions + [a];
    if !Exec(r).ctl.Idle? { r := Completes(r, base, mode, device); }
  }

  // ---------------------------------------------------------------- bringing every thread to rest

  /** Live threads as they are without a request under way, with clients that have not exited. */
  ghost predicate Willing(threads: seq<Thread>) {
    forall i :: 0 <= i < |threads| && Live(threads[i]) ==> !threads[i].client.Exiting?
  }

  /** All calls of the thread have ended. */
  ghost predicate Ended(t: Thread) { t.done == |t.calls| && t.pub == Total(t.calls) && !InCall(t.client) }

  lemma IdleLoops(s: State, i: nat)
    requires Inv(s) && s.ctl.Idle? && i < |s.threads| && Live(s.threads[i])
    ensures Looping(s.threads[i].server) && !s.threads[i].disabled
  {
    assert PhaseOk(s.threads[i], false, s.barrier.gen, s.device);
    hide Inv, ThreadInv;
  }

  /** The first `n` live threads have ended their calls; nobody has begun one. */
  ghost predicate EndedUpTo(was: seq<Thread>, now: seq<Thread>, n: nat) {
    && |now| == |was|
    && forall i :: 0 <= i < |was| ==>
         if Live(was[i])
         then Live(now[i]) && now[i].calls == was[i].calls && !now[i].client.Exiting? && (i < n ==> Ended(now[i]))
         else now[i] == was[i]
  }

  lemma {:induction false} AllEnd(actions: seq<Action>, n: nat) returns (r: seq<Action>)
    requires Exec(actions).ctl.Idle? && Willing(Exec(actions).threads) && n <= |Exec(actions).threads|
    ensures actions <= r && Exec(r).ctl.Idle? && EndedUpTo(Exec(actions).threads, Exec(r).threads, n)
  {
    hide Exec, Inv;
    r := actions;
    if n > 0 {
      r := AllEnd(actions, n - 1);
      var before := Exec(r);
      if Live(before.threads[n - 1]) {
        RunKeeps(r);
        IdleLoops(before, n - 1);
        r := CallsEnd(r, n - 1);
      }
    }
  }

  /** Locked up to `j`. */
  ghost predicate LockedUpTo(was: seq<Thread>, now: seq<Thread>, j: nat) {
    && |now| == |was|
    && forall i :: 0 <= i < |was| ==>
         now[i] == was[i].(member := Live(was[i]), disabled := was[i].disabled || (i < j && Live(was[i])))
  }

  lemma {:induction false} LocksFrom(actions: seq<Action>, was: seq<Thread>, j: nat) returns (r: seq<Action>)
    requires Exec(actions).ctl == Locking(j) && LockedUpTo(was, Exec(actions).threads, j) && j <= |was|
    ensures actions <= r && Exec(r) == Exec(actions).(ctl := Arriving1, threads := Exec(r).threads)
    ensures LockedUpTo(was, Exec(r).threads, |was|)
    decreases |was| - j
  {
    hide Exec;
    ExecAppend(actions, ControllerMoves);
    r := actions + [ControllerMoves];
    if j < |was| { r := LocksFrom(r, was, j + 1); }
  }

  lemma Locks(actions: seq<Action>, mode: Mode) returns (r: seq<Action>)
    requires Exec(actions).ctl.Idle?
    ensures actions <= r && LockedUpTo(Exec(actions).threads, Exec(r).threads, |Exec(actions).threads|)
    ensures var s, t := Exec(actions), Exec(r);
            t.ctl == Arriving1 && t.mode == mode && t.barrier.gen == 0 && t.device == s.device
            && t.kernelDump == s.kernelDump && t.memoryDump == s.memoryDump
  {
    hide Exec;
    ExecAppend(actions, Request(mode));
    r := actions + [Request(mode)];
    r := LocksFrom(r, Exec(actions).threads, 0);
  }

  /** The first `n` members have entered; the others are ready to. */
  ghost predicate EnteredUpTo(was: seq<Thread>, now: seq<Thread>, n: nat) {
    && |now| == |was|
    && forall i :: 0 <= i < |was| ==>
         if was[i].member
         then now[i].member && now[i].calls == was[i].calls && (if i < n then now[i].server.Entered? else now[i] == was[i])
         else now[i] == was[i]
  }

  /** A locked member whose calls have ended. */
  ghost predicate Parkable(t: Thread) { t.disabled && Looping(t.server) && !t.client.Exiting? && Ended(t) }

  lemma EndedIsNotDoomed(t: Thread)
    requires ThreadInv(t) && Looping(t.server) && Ended(t)
    ensures !Doomed(t)
  {
    assert t.calls[..t.done] == t.calls;
    hide ReplyOk, Total;
  }

  lemma {:induction false} AllPark(actions: seq<Action>, n: nat) returns (r: seq<Action>)
    requires var s := Exec(actions);
      n <= |s.threads| && forall i :: 0 <= i < |s.threads| && s.threads[i].member ==> Parkable(s.threads[i])
    ensures actions <= r && EnteredUpTo(Exec(actions).threads, Exec(r).threads, n)
    ensures var s, t := Exec(actions), Exec(r); t.ctl == s.ctl && t.barrier == s.barrier && t.mode == s.mode
  {
    hide Exec, Inv, Ended, Doomed;
    r := actions;
    if n > 0 {
      r := AllPark(actions, n - 1);
      var t := Exec(r).threads[n - 1];
      if t.member {
        RunKeeps(r);
        assert ThreadInv(t) by { InvThread(Exec(r), n - 1); }
        hide ThreadInv;
        EndedIsNotDoomed(t);
        r := NotDoomedParks(r, n - 1);
      }
    }
  }

  lemma InvThread(s: State, i: nat)
    requires Inv(s) && i < |s.threads|
    ensures ThreadInv(s.threads[i])
  {
  }

  // ---------------------------------------------------------------- all together

  /** What a whole checkpoint leaves of a thread: a live one has all its calls executed and dumped and is
      released as the mode says; a dead one is untouched. */
  ghost predicate Checkpointed(was: Thread, now: Thread, mode: Mode, device: nat) {
    if Live(was)
    then now.calls == was.calls && now.done == |was.calls| && now.handleDump == |was.calls| && now.deviceDump == device
         && now.server == Released(mode) && now.disabled == (mode == Detach)
    else now.server == was.server && now.calls == was.calls && now.disabled == was.disabled
  }

  /** Everyone ended, locked and parked: the state the barriers start from. */
  lemma Gathers(actions: seq<Action>, mode: Mode) returns (r: seq<Action>)
    requires Exec(actions).ctl.Idle? && Willing(Exec(actions).threads)
    ensures actions <= r && Gathered(Exec(r)) && AllFollow(Exec(r), Exec(r).threads, mode, Exec(r).device)
    ensures Assembled(Exec(actions).threads, Exec(r).threads)
  {
    hide Exec, Inv, Looping, Ended;
    var was := Exec(actions).threads;
    r := AllEnd(actions, |was|);
    var ended := r;
    RunKeeps(r);
    forall i | 0 <= i < |was| && Live(Exec(ended).threads[i]) ensures Looping(Exec(ended).threads[i].server) {
      IdleLoops(Exec(ended), i);
    }
    r := Locks(r, mode);
    var locked := r;
    LockedParkable(was, Exec(ended).threads, Exec(locked).threads);
    r := AllPark(r, |was|);
    RunKeeps(r);
    EnteredAssembles(was, Exec(ended).threads, Exec(locked).threads, Exec(r).threads);
    hide Assembled, EnteredUpTo, LockedUpTo, EndedUpTo;
    EnteredGathers(Exec(r), mode);
  }

  lemma LockedParkable(was: seq<Thread>, ended: seq<Thread>, locked: seq<Thread>)
    requires EndedUpTo(was, ended, |was|) && LockedUpTo(ended, locked, |ended|)
    requires forall i :: 0 <= i < |was| && Live(ended[i]) ==> Looping(ended[i].server)
    ensures |locked| == |was| && forall i :: 0 <= i < |locked| && locked[i].member ==> Parkable(locked[i])
  {
    forall i | 0 <= i < |locked| && locked[i].member ensures Parkable(locked[i]) {
      assert locked[i] == ended[i].(member := true, disabled := true);
      assert Live(was[i]);
    }
  }

  /** Who has come to the checkpoint: exactly the live threads, with the calls they had begun. */
  ghost predicate Assembled(was: seq<Thread>, now: seq<Thread>) {
    && |now| == |was|
    && forall i :: 0 <= i < |was| ==>
         if Live(was[i]) then now[i].member && now[i].server.Entered? && now[i].calls == was[i].calls
         else now[i] == was[i].(member := false)
  }

  lemma EnteredAssembles(was: seq<Thread>, ended: seq<Thread>, locked: seq<Thread>, now: seq<Thread>)
    requires EndedUpTo(was, ended, |was|) && LockedUpTo(ended, locked, |ended|) && EnteredUpTo(locked, now, |was|)
    ensures Assembled(was, now)
    ensures forall i :: 0 <= i < |now| && now[i].member ==> now[i].server.Entered?
  {
    forall i | 0 <= i < |was|
      ensures if Live(was[i]) then now[i].member && now[i].server.Entered? && now[i].calls == was[i].calls
              else now[i] == was[i].(member := false)
    {
      assert locked[i] == ended[i].(member := Live(ended[i]), disabled := ended[i].disabled || Live(ended[i]));
      if !Live(was[i]) { assert now[i] == locked[i]; }
    }
  }

  lemma EnteredGathers(s: State, mode: Mode)
    requires Inv(s) && s.ctl == Arriving1 && s.mode == mode
    requires forall i :: 0 <= i < |s.threads| && s.threads[i].member ==> s.threads[i].server.Entered?
    ensures Gathered(s) && AllFollow(s, s.threads, mode, s.device)
  {
    hide Inv;
  }

  /** Main result. Whatever has happened before, if no request is under way and no live client has exited,
      a checkpoint in any mode can be taken from start to end: some schedule lets every live thread's
      calls end, parks it, takes all dumps and releases everyone as the mode says. Dead threads do not
      stand in the way. */
  lemma CheckpointCanBeTaken(actions: seq<Action>, mode: Mode) returns (r: seq<Action>)
    requires Exec(actions).ctl.Idle? && Willing(Exec(actions).threads)
    ensures actions <= r && |Exec(r).threads| == |Exec(actions).threads|
    ensures var s, t := Exec(actions), Exec(r);
            && t.ctl.Idle? && (mode != Detach ==> t.kernelDump == t.memoryDump == t.device)
            && forall i :: 0 <= i < |s.threads| ==> Checkpointed(s.threads[i], t.threads[i], mode, t.device)
  {
    hide Exec, Gathered, Inv;
    r := Gathers(actions, mode);
    var base, device := Exec(r).threads, Exec(r).device;
    var gathered := r;
    forall i | 0 <= i < |base| && base[i].server.Entered? ensures base[i].done == |base[i].calls| {
      QuietAtCheckpoint(gathered, i);
    }
    r := Completes(r, base, mode, device);
    FollowedIsCheckpointed(Exec(actions).threads, base, Exec(r), mode, device);
  }

  lemma FollowedIsCheckpointed(was: seq<Thread>, base: seq<Thread>, t: State, mode: Mode, device: nat)
    requires Assembled(was, base) && AllFollow(t, base, mode, device) && t.ctl.Idle?
    requires forall u :: u in t.threads ==> !InCheckpoint(u.server)
    requires forall i :: 0 <= i < |base| && base[i].server.Entered? ==> base[i].done == |base[i].calls|
    ensures |t.threads| == |was| && t.device == device && (mode != Detach ==> t.kernelDump == t.memoryDump == device)
    ensures forall i :: 0 <= i < |was| ==> Checkpointed(was[i], t.threads[i], mode, device)
  {
    forall i | 0 <= i < |was| ensures Checkpointed(was[i], t.threads[i], mode, device) {
      assert t.threads[i] in t.threads;
      assert Follows(t.threads[i], base[i], mode, device);
    }
  }
}
