/** What a checkpoint leaves behind in each mode: a detached client locked out for good, a running worker
    that executes its client's next call, a killed worker stopped with its client unlocked. */
module CheckpointEnds {
  import opened Quiesce
  import opened Checkpoint

  /** Continuing a run. */
  ghost function Continue(s: State, more: seq<Action>): State {
    if more == [] then s else Step(Continue(s, more[..|more| - 1]), more[|more| - 1])
  }

  lemma {:induction false} ExecContinues(actions: seq<Action>, more: seq<Action>)
    ensures Exec(actions + more) == Continue(Exec(actions), more)
  {
    hide Step, Exec;
    if more == [] {
      assert actions + more == actions;
    } else {
      var front, a := more[..|more| - 1], more[|more| - 1];
      ExecContinues(actions, front);
      assert actions + more == (actions + front) + [a];
      ExecAppend(actions + front, a);
    }
  }

  lemma PanickedStays(t: Thread, k: nat)
    requires t.server.Panicked?
    ensures ServerStep(t, k) == t
  {
  }

  // ---------------------------------------------------------------- unlocking

  /** The worker's last move out of its checkpoint. */
  lemma UnlockIs(s: State, i: nat, k: nat)
    requires Inv(s) && i < |s.threads| && s.threads[i].server.Unlock?
    ensures var t, s' := s.threads[i], Step(s, ServerMoves(i, k));
            && s'.ctl == s.ctl && !s.ctl.Locking? && |s'.threads| == |s.threads|
            && s'.threads[i] == t.(disabled := s.mode == Detach,
                                   server := if s.mode == LeaveRunning then Receive(false, 0, false) else Stopped)
            && t.disabled && !t.inUse && !InCall(t.client)
            && t.pub == t.got == Total(t.calls) && t.done == |t.calls| && t.replies == 0 && (t.bye > 0 ==> t.client.Exiting?)
  {
    assert ThreadInv(s.threads[i]) && PhaseOk(s.threads[i], !s.ctl.Idle?, s.barrier.gen, s.device);
    hide ReplyOk, Total, Sums.Sum;
    ParkedIsQuiet(s.threads[i]);
  }

  // ---------------------------------------------------------------- detached

  /** The worker is gone and the client, outside any call, finds its flag locked. */
  ghost predicate LockedOut(s: State, i: nat, t: Thread) {
    && i < |s.threads|
    && var u := s.threads[i];
       && u.server.Stopped? && u.disabled && !u.inUse && !InCall(u.client)
       && u.calls == t.calls && u.pub == t.pub && u.done == t.done && u.got == t.got && u.replies == t.replies
  }

  lemma StepLocksOut(s: State, a: Action, i: nat, t: Thread)
    requires LockedOut(s, i, t)
    ensures LockedOut(Step(s, a), i, t)
  {
    hide Total, Sums.Sum;
  }

  lemma {:induction false} RunLocksOut(s: State, more: seq<Action>, i: nat, t: Thread)
    requires LockedOut(s, i, t)
    ensures LockedOut(Continue(s, more), i, t)
  {
    hide LockedOut, Step;
    if more != [] {
      RunLocksOut(s, more[..|more| - 1], i, t);
      StepLocksOut(Continue(s, more[..|more| - 1]), more[|more| - 1], i, t);
    }
  }

  /** Main result. Once a worker thread has left a detaching checkpoint, its client can never enter a
      call again: whatever happens afterwards, the calls begun, the bytes published for them and the
      calls executed are those of the checkpoint, and the client's flag stays locked. */
  lemma DetachedForGood(actions: seq<Action>, i: nat, k: nat, more: seq<Action>)
    requires var s := Exec(actions); i < |s.threads| && s.threads[i].server.Unlock? && s.mode == Detach
    ensures LockedOut(Exec(actions + [ServerMoves(i, k)] + more), i, Exec(actions).threads[i])
  {
    hide Inv, Step, Exec;
    RunKeeps(actions);
    UnlockIs(Exec(actions), i, k);
    ExecAppend(actions, ServerMoves(i, k));
    RunLocksOut(Exec(actions + [ServerMoves(i, k)]), more, i, Exec(actions).threads[i]);
    ExecContinues(actions + [ServerMoves(i, k)], more);
  }

  // ---------------------------------------------------------------- killed

  /** The worker is gone and the client's flag is clear; no request may still lock it. */
  ghost predicate LetGo(s: State, i: nat, done: nat) {
    && i < |s.threads|
    && s.threads[i].server.Stopped? && !s.threads[i].disabled && s.threads[i].done == done
    && (s.ctl.Locking? ==> !s.threads[i].member)
  }

  lemma StepLetsGo(s: State, a: Action, i: nat, done: nat)
    requires LetGo(s, i, done)
    ensures LetGo(Step(s, a), i, done)
  {
    hide Total, Sums.Sum;
  }

  lemma {:induction false} RunLetsGo(s: State, more: seq<Action>, i: nat, done: nat)
    requires LetGo(s, i, done)
    ensures LetGo(Continue(s, more), i, done)
  {
    hide LetGo, Step;
    if more != [] {
      RunLetsGo(s, more[..|more| - 1], i, done);
      StepLetsGo(Continue(s, more[..|more| - 1]), more[|more| - 1], i, done);
    }
  }

  /** After a killing checkpoint the worker thread executes nothing any more, and its client is
      unlocked and stays so. */
  lemma KilledForGood(actions: seq<Action>, i: nat, k: nat, more: seq<Action>)
    requires var s := Exec(actions); i < |s.threads| && s.threads[i].server.Unlock? && s.mode == Kill
    ensures LetGo(Exec(actions + [ServerMoves(i, k)] + more), i, Exec(actions).threads[i].done)
  {
    hide Inv, Step, Exec;
    RunKeeps(actions);
    UnlockIs(Exec(actions), i, k);
    ExecAppend(actions, ServerMoves(i, k));
    RunLetsGo(Exec(actions + [ServerMoves(i, k)]), more, i, Exec(actions).threads[i].done);
    ExecContinues(actions + [ServerMoves(i, k)], more);
  }

  // ---------------------------------------------------------------- left running

  /** Only thread `i` has moved. */
  ghost predicate Aside(s: State, t: State, i: nat) {
    && t.ctl == s.ctl && t.barrier == s.barrier && t.mode == s.mode
    && t.kernelDump == s.kernelDump && t.memoryDump == s.memoryDump
    && |t.threads| == |s.threads| && forall j :: 0 <= j < |s.threads| && j != i ==> t.threads[j] == s.threads[j]
  }

  lemma StillAside(s: State, t: State, u: State, i: nat)
    requires Aside(s, t, i) && Aside(t, u, i)
    ensures Aside(s, u, i)
  {
  }

  lemma ClientMoved(actions: seq<Action>, i: nat, t: Thread, a: ClientAction) returns (r: seq<Action>)
    requires i < |Exec(actions).threads| && Exec(actions).threads[i] == t
    ensures i < |Exec(r).threads| && Exec(r).threads[i] == ClientStep(t, a) && actions <= r
    ensures Aside(Exec(actions), Exec(r), i)
  {
    r := actions + [ClientMoves(i, a)];
    ExecAppend(actions, ClientMoves(i, a));
  }

  lemma ServerMoved(actions: seq<Action>, i: nat, t: Thread, k: nat) returns (r: seq<Action>)
    requires i < |Exec(actions).threads| && Exec(actions).threads[i] == t && !InCheckpoint(t.server)
    ensures i < |Exec(r).threads| && Exec(r).threads[i] == (if CanExecute(t) then Execute(t) else ServerStep(t, k)) && actions <= r
    ensures Aside(Exec(actions), Exec(r), i)
  {
    r := actions + [ServerMoves(i, k)];
    ExecAppend(actions, ServerMoves(i, k));
  }

  /** A worker receiving with nothing pending, and a client free to call. */
  ghost predicate Ready(t: Thread) {
    && t.server == Receive(false, 0, false) && t.client.Outside? && !t.inUse && !t.disabled
    && t.pub == t.got == Total(t.calls) && t.bye == 0 && t.done == |t.calls|
  }

  /** The thread once one more call has been made, executed and answered. */
  ghost function Served(t: Thread, call: Call): Thread {
    var n := HEADER + call.body;
    t.(calls := t.calls + [call], pub := t.pub + n, got := t.got + n, done := t.done + 1)
  }

  /** From there some continuation carries any call through: sent, executed, answered if the client waits
      for it, and returned, the worker receiving again. */
  lemma ReadyServes(actions: seq<Action>, i: nat, t: Thread, call: Call) returns (r: seq<Action>)
    requires i < |Exec(actions).threads| && Exec(actions).threads[i] == t && Ready(t)
    ensures i < |Exec(r).threads| && actions <= r
    ensures Exec(r).threads[i] == Served(t, call) && Ready(Served(t, call))
  {
    hide Exec;
    var n := HEADER + call.body;
    var calls := t.calls + [call];
    assert calls[..|calls| - 1] == t.calls && Total(calls) == Total(t.calls) + n;
    hide Total;
    r := ClientMoved(actions, i, t, Enter(call));
    var u := t.(inUse := true, client := Sending, calls := calls);
    r := ClientMoved(r, i, u, Publish(n));
    u := u.(pub := t.pub + n);
    r := RequestExecuted(r, i, u, call);
    u := u.(got := t.got + n, done := t.done + 1, replies := if call.sync then t.replies + 1 else t.replies);
    r := CallReturns(r, i, u, call.sync);
  }

  lemma CallReturns(actions: seq<Action>, i: nat, t: Thread, sync: bool) returns (r: seq<Action>)
    requires i < |Exec(actions).threads| && Exec(actions).threads[i] == t
    requires t.client.Sending? && t.calls != [] && t.calls[|t.calls| - 1].sync == sync && t.pub == Total(t.calls) && (sync ==> t.replies > 0)
    ensures i < |Exec(r).threads| && actions <= r
    ensures Exec(r).threads[i] == t.(client := Outside, inUse := false, replies := if sync then t.replies - 1 else t.replies)
  {
    hide Exec, Total;
    r := ClientMoved(actions, i, t, FinishSend);
    var u := t.(client := if sync then Awaiting else Leaving);
    if sync {
      r := ClientMoved(r, i, u, TakeReply);
      u := u.(client := Leaving, replies := t.replies - 1);
    }
    r := ClientMoved(r, i, u, Leave);
  }

  /** The worker takes a published request off the ring and executes it. */
  lemma RequestExecuted(actions: seq<Action>, i: nat, t: Thread, call: Call) returns (r: seq<Action>)
    requires i < |Exec(actions).threads| && Exec(actions).threads[i] == t
    requires t.server == Receive(false, 0, false) && t.done < |t.calls| && t.calls[t.done] == call
    requires t.pub + t.bye == t.got + HEADER + call.body
    ensures i < |Exec(r).threads| && actions <= r
    ensures Exec(r).threads[i] == t.(got := t.got + HEADER + call.body, server := Receive(false, 0, false), done := t.done + 1,
                                     replies := if call.sync then t.replies + 1 else t.replies)
  {
    hide Exec;
    r := ServerMoved(actions, i, t, HEADER);
    var u := t.(got := t.got + HEADER, server := Body(call.body));
    if call.body > 0 {
      r := ServerMoved(r, i, u, call.body);
      u := u.(got := t.got + HEADER + call.body, server := Body(0));
    }
    r := ServerMoved(r, i, u, 0);
  }

  /** Main result. Once a worker thread has left a checkpoint that leaves the worker running, it is back
      in its receive loop with its client unlocked, and if the client has not exited some continuation
      carries whatever call it makes next through, execution, reply and return. */
  lemma RunningGoesOn(actions: seq<Action>, i: nat, k: nat, call: Call) returns (r: seq<Action>)
    requires var s := Exec(actions); i < |s.threads| && s.threads[i].server.Unlock? && s.mode == LeaveRunning
    ensures var s' := Exec(actions + [ServerMoves(i, k)]);
            && i < |s'.threads| && s'.threads[i].server == Receive(false, 0, false) && !s'.threads[i].disabled
    ensures i < |Exec(r).threads| && actions + [ServerMoves(i, k)] <= r
    ensures var t, u := Exec(actions).threads[i], Exec(r).threads[i];
            t.client.Outside? ==> Ready(u) && u.calls == t.calls + [call] && u.done == t.done + 1
  {
    hide Inv, Step, Exec;
    RunKeeps(actions);
    UnlockIs(Exec(actions), i, k);
    ExecAppend(actions, ServerMoves(i, k));
    r := actions + [ServerMoves(i, k)];
    if Exec(actions).threads[i].client.Outside? {
      r := ReadyServes(r, i, Exec(r).threads[i], call);
    }
  }
}
