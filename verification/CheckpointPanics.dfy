/** Panics of a worker's own receiving: where they can happen, and what one does to the checkpoint that
    counted the thread. */
module CheckpointPanics {
  import opened Quiesce
  import opened Checkpoint
  import opened CheckpointEnds

  // ---------------------------------------------------------------- where a worker can panic

  /** The second receive completes a procedure id although the flag read locked. */
  ghost predicate SecondReceives(t: Thread, k: nat) {
    && t.server.Receive? && t.server.second && t.server.cur < HEADER && Available(t) > 0
    && t.server.cur + Chunk(k, Available(t), HEADER - t.server.cur) == HEADER
  }

  /** The worker found the ring empty with part of a request received, and the flag reads locked. */
  ghost predicate LockedInRequest(t: Thread) {
    ReadsLocked(t) && (t.server.BodyEmpty? || (t.server.SawEmpty? && t.server.cur > 0))
  }

  /** A worker's own receiving panics in these two places only. In the second, a client that has not
      exited has long published the rest of the request: the lock came between the worker's look at the
      ring and its look at the flag, which only an asynchronous call leaves room for. */
  lemma PanicsExactly(actions: seq<Action>, i: nat, k: nat)
    requires i < |Exec(actions).threads| && !Exec(actions).threads[i].server.Panicked?
    ensures var t := Exec(actions).threads[i];
            && (ServerStep(t, k).server.Panicked? <==> SecondReceives(t, k) || LockedInRequest(t))
            && (LockedInRequest(t) && !t.client.Exiting? ==>
                  t.done < |t.calls| && !t.calls[t.done].sync && t.got + Available(t) >= Total(t.calls[..t.done + 1]) > t.got)
  {
    RunKeeps(actions);
    var t := Exec(actions).threads[i];
    assert ThreadInv(t);
    hide ThreadInv, ServerStep, Total;
    if t.server.Receive? { ReceivePanics(t, k); }
    else { OthersPanic(t, k); }
    if LockedInRequest(t) && !t.client.Exiting? { RestIsThere(t); }
  }

  lemma ReceivePanics(t: Thread, k: nat)
    requires ThreadInv(t) && t.server.Receive?
    ensures ServerStep(t, k).server.Panicked? <==> SecondReceives(t, k)
  {
    hide Total, ReplyOk, ClientOk;
  }

  lemma OthersPanic(t: Thread, k: nat)
    requires ThreadInv(t) && !t.server.Receive? && !t.server.Panicked?
    ensures ServerStep(t, k).server.Panicked? <==> LockedInRequest(t)
  {
    hide Total, ReplyOk;
  }

  lemma RestIsThere(t: Thread)
    requires ThreadInv(t) && LockedInRequest(t) && !t.client.Exiting?
    ensures t.done < |t.calls| && !t.calls[t.done].sync && t.got + Available(t) >= Total(t.calls[..t.done + 1]) > t.got
  {
    TotalGrows(t.calls, t.done);
    if t.done < |t.calls| { TotalGrows(t.calls, t.done + 1); }
    hide Total;
  }

  lemma SoloReceives(actions: seq<Action>, t: Thread, k: nat) returns (r: seq<Action>)
    requires Solo(actions, t) && !CanExecute(t) && !InCheckpoint(t.server)
    ensures Solo(r, ServerStep(t, k)) && Exec(r).ctl == Exec(actions).ctl
  {
    hide ServerStep;
    r := actions + [ServerMoves(0, k)];
    ExecAppend(actions, ServerMoves(0, k));
    assert [t][0 := ServerStep(t, k)] == [ServerStep(t, k)];
  }

  // ---------------------------------------------------------------- a lock that comes late

  lemma Moved(actions: seq<Action>, s: State, a: Action) returns (r: seq<Action>)
    requires Exec(actions) == s
    ensures Exec(r) == Step(s, a)
  {
    r := actions + [a];
    ExecAppend(actions, a);
  }

  /** A worker with one client thread is asked for a checkpoint, and its client locked. */
  lemma OneThreadAsked(actions: seq<Action>, s: State, t: Thread, mode: Mode) returns (r: seq<Action>)
    requires Exec(actions) == s && s.ctl.Idle? && s.threads == [t] && Live(t)
    ensures Exec(r) == s.(threads := [t.(member := true, disabled := true)], ctl := Arriving1, mode := mode, barrier := Barrier(2, 0, 0))
  {
    hide Exec;
    var u := t.(member := true);
    assert Enlist([t]) == [u] by { assert [t][..0] == []; }
    assert Sums.Sum([u], Members) == 1 by { assert [u][..0] == []; }
    hide Enlist, Sums.Sum;
    r := Moved(actions, s, Request(mode));
    var now := s.(threads := [u], ctl := Locking(0), mode := mode, barrier := Barrier(2, 0, 0));
    r := Moved(r, now, ControllerMoves);
    now := now.(threads := [u.(disabled := true)], ctl := Locking(1));
    assert [u][0 := u.(disabled := true)] == now.threads;
    r := Moved(r, now, ControllerMoves);
  }

  /** One asynchronous call with a body of one byte. */
  const ONE_CALL: seq<Call> := [Call(1, false)]

  lemma OneCallTotal()
    ensures Total(ONE_CALL) == 5 && [] + ONE_CALL == ONE_CALL && Total([]) == 0
  {
    assert ONE_CALL[..0] == [];
  }

  /** A thread counted by the request under way has panicked before the first wait. */
  ghost predicate Blocked(s: State, i: nat) {
    && !s.ctl.Idle? && s.barrier.gen == 0
    && i < |s.threads| && s.threads[i].member && s.threads[i].server.Panicked?
  }

  /** One step from there: nobody but the barrier's last arrival could change anything. */
  ghost predicate StillBlocked(t: State, i: nat) {
    && !t.ctl.Idle? && t.barrier.gen <= 1
    && i < |t.threads| && t.threads[i].member && t.threads[i].server.Panicked?
  }

  lemma ServerLeavesBlocked(s: State, j: nat, k: nat, i: nat)
    requires Blocked(s, i) && j < |s.threads|
    ensures StillBlocked(ServerMove(s, j, k), i)
  {
    hide ServerStep;
    if j == i { PanickedStays(s.threads[i], k); }
  }

  lemma ControllerLeavesBlocked(s: State, i: nat)
    requires Blocked(s, i) && (s.ctl.Locking? || s.ctl.Arriving1? || s.ctl == CWait1(0))
    ensures StillBlocked(ControllerMove(s), i)
  {
  }

  lemma OthersLeaveBlocked(s: State, a: Action, i: nat)
    requires Blocked(s, i) && !a.ServerMoves? && !a.ControllerMoves?
    ensures StillBlocked(Step(s, a), i)
  {
    hide Total;
  }

  lemma StepStaysBlocked(s: State, a: Action, i: nat)
    requires Inv(s) && Blocked(s, i)
    ensures Blocked(Step(s, a), i)
  {
    StepKeeps(s, a);
    BlockedController(s, i);
    hide ServerMove, ControllerMove, ClientStep, Enlist, Sums.Sum, ThreadInv;
    match a
    case ServerMoves(j, k) => if j < |s.threads| { ServerLeavesBlocked(s, j, k, i); }
    case ControllerMoves => ControllerLeavesBlocked(s, i);
    case _ => OthersLeaveBlocked(s, a, i);
    assert PhaseOk(Step(s, a).threads[i], true, Step(s, a).barrier.gen, Step(s, a).device);
  }

  lemma BlockedController(s: State, i: nat)
    requires Inv(s) && Blocked(s, i)
    ensures s.ctl.Locking? || s.ctl.Arriving1? || s.ctl == CWait1(0)
  {
  }

  /** Such a request never gets anywhere: in every continuation the controller is still waiting for the
      first barrier, nothing is dumped, and no client it has locked is unlocked by the barrier's turn. */
  lemma {:induction false} PanicBlocksCheckpoint(actions: seq<Action>, more: seq<Action>, i: nat)
    requires Blocked(Exec(actions), i)
    ensures var s := Exec(actions + more);
            Blocked(s, i) && (s.ctl.Locking? || s.ctl.Arriving1? || s.ctl == CWait1(0))
  {
    hide Blocked, Step, Inv, Exec;
    if more == [] {
      assert actions + more == actions;
    } else {
      var front, a := more[..|more| - 1], more[|more| - 1];
      PanicBlocksCheckpoint(actions, front, i);
      RunKeeps(actions + front);
      assert actions + more == (actions + front) + [a];
      ExecAppend(actions + front, a);
      StepStaysBlocked(Exec(actions + front), a, i);
    }
    RunKeeps(actions + more);
    BlockedController(Exec(actions + more), i);
  }

  lemma EmptyInsideRequest() returns (actions: seq<Action>)
    ensures Exec(actions).ctl.Idle?
    ensures Solo(actions, FRESH.(inUse := true, client := Sending, calls := ONE_CALL, pub := 4, got := 4, server := BodyEmpty(1)))
  {
    hide Exec;
    OneCallTotal();
    actions := SoloSpawn();
    actions := SoloClient(actions, FRESH, Enter(Call(1, false)));
    var t := FRESH.(inUse := true, client := Sending, calls := ONE_CALL);
    actions := SoloClient(actions, t, Publish(4));
    t := t.(pub := 4);
    actions := SoloReceives(actions, t, 4);
    actions := SoloServer(actions, t.(got := 4, server := Body(1)));
  }

  /** It happens: the worker finds the ring empty inside an asynchronous request, its client publishes the
      rest and leaves, a checkpoint locks the flag, and the worker reads it. */
  lemma LateLockPanics() returns (actions: seq<Action>)
    ensures var s := Exec(actions);
            |s.threads| == 1 && s.threads[0].got + Available(s.threads[0]) == Total(s.threads[0].calls) && Blocked(s, 0)
  {
    hide Exec;
    OneCallTotal();
    actions := EmptyInsideRequest();
    var t := FRESH.(inUse := true, client := Sending, calls := ONE_CALL, pub := 4, got := 4, server := BodyEmpty(1));
    actions := SoloClient(actions, t, Publish(1));
    actions := SoloClient(actions, t.(pub := 5), FinishSend);
    actions := SoloClient(actions, t.(pub := 5, client := Leaving), Leave);
    t := t.(pub := 5, client := Outside, inUse := false);
    var s := Exec(actions);
    actions := OneThreadAsked(actions, s, t, Kill);
    s := s.(threads := [t.(member := true, disabled := true)], ctl := Arriving1, mode := Kill, barrier := Barrier(2, 0, 0));
    actions := Moved(actions, s, ServerMoves(0, 0));
  }
}
