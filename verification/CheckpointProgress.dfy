/** Progress of a worker's receive loop: what has been sent can be executed, and a locked worker can reach
    its checkpoint exactly if no request came in between its look at the ring and its look at the flag. */
module CheckpointProgress {
  import opened Quiesce
  import opened Checkpoint
  import opened CheckpointEnds

  predicate Looping(s: Server) { s.Receive? || s.SawEmpty? || s.Body? || s.BodyEmpty? }

  /** Between two looks at the ring: the next move takes bytes or executes. */
  predicate Calm(s: Server) { (s.Receive? && !s.second) || s.Body? }

  ghost function Next(t: Thread, k: nat): Thread { if CanExecute(t) then Execute(t) else ServerStep(t, k) }

  function Stage(s: Server): nat { if s.SawEmpty? || s.BodyEmpty? || s == Body(0) then 1 else 0 }

  /** The worker's own moves change nothing of the client's. */
  ghost predicate SameClient(t: Thread, u: Thread) {
    && u.inUse == t.inUse && u.disabled == t.disabled && u.client == t.client && u.calls == t.calls
    && u.pub == t.pub && u.bye == t.bye && u.member == t.member
  }

  /** One move of the worker with a call outstanding: it is nearer to executing it. */
  ghost predicate Advances(t: Thread, u: Thread) {
    && SameClient(t, u) && Looping(u.server) && u.got <= t.pub + t.bye
    && (!ReadsLocked(u) || Calm(u.server))
    && (u.got > t.got || (u.got == t.got && Stage(u.server) < Stage(t.server)))
  }

  lemma ReceiveAdvances(t: Thread)
    requires t.server.Receive? && !t.server.second && t.server.cur < HEADER && t.done < |t.calls| && Available(t) > 0 && t.got <= t.pub + t.bye
    ensures Advances(t, Next(t, 0))
  {
  }

  lemma EmptyAdvances(t: Thread)
    requires (t.server.SawEmpty? || t.server.BodyEmpty?) && !ReadsLocked(t) && t.got <= t.pub + t.bye
    requires t.server.SawEmpty? ==> !t.server.second
    requires t.server.BodyEmpty? ==> t.server.rem > 0
    ensures Advances(t, Next(t, 0))
  {
  }

  lemma BodyAdvances(t: Thread)
    requires t.server.Body? && t.done < |t.calls| && t.got + t.server.rem <= t.pub + t.bye
    ensures Advances(t, Next(t, 0))
  {
  }

  lemma ServeAdvances(t: Thread)
    requires ThreadInv(t) && Looping(t.server) && t.done < |t.calls| && t.pub == Total(t.calls)
    requires !ReadsLocked(t) || Calm(t.server)
    ensures ThreadInv(Next(t, 0)) && Advances(t, Next(t, 0))
  {
    NextKeeps(t);
    TotalGrows(t.calls, t.done);
    TotalGrows(t.calls, t.done + 1);
    hide ReplyOk, Total, ClientOk, Advances, Next;
    if t.server.Receive? { ReceiveAdvances(t); }
    else if t.server.Body? { BodyAdvances(t); }
    else { EmptyAdvances(t); }
  }

  lemma NextKeeps(t: Thread)
    requires ThreadInv(t)
    ensures ThreadInv(Next(t, 0))
  {
    hide ThreadInv, Execute, ServerStep;
    if CanExecute(t) { ExecuteKeeps(t); } else { ServerKeeps(t, 0); }
  }

  /** The worker alone executes all the client has sent. */
  lemma {:induction false} ServesAll(actions: seq<Action>, i: nat, t: Thread) returns (r: seq<Action>, u: Thread)
    requires i < |Exec(actions).threads| && Exec(actions).threads[i] == t
    requires ThreadInv(t) && Looping(t.server) && t.pub == Total(t.calls) && (!ReadsLocked(t) || Calm(t.server) || t.done == |t.calls|)
    ensures actions <= r && i < |Exec(r).threads| && Exec(r).threads[i] == u && Aside(Exec(actions), Exec(r), i)
    ensures ThreadInv(u) && Looping(u.server) && SameClient(t, u) && u.done == |t.calls|
    decreases t.pub + t.bye - t.got, Stage(t.server)
  {
    DoneIsBounded(t);
    r, u := actions, t;
    hide ThreadInv, Exec, Next, ServerStep, Execute, Total;
    if t.done < |t.calls| {
      ServeAdvances(t);
      assert !InCheckpoint(t.server);
      r := ServerMoved(actions, i, t, 0);
      u := Next(t, 0);
      assert Exec(r).threads[i] == u by { NextIs(t); }
      var moved := r;
      r, u := ServesAll(r, i, u);
      StillAside(Exec(actions), Exec(moved), Exec(r), i);
    }
  }

  lemma NextIs(t: Thread)
    ensures Next(t, 0) == if CanExecute(t) then Execute(t) else ServerStep(t, 0)
  {
  }

  lemma DoneIsBounded(t: Thread)
    requires ThreadInv(t) && Looping(t.server)
    ensures t.done <= |t.calls| && t.got <= t.pub + t.bye
  {
    hide ReplyOk, Total;
  }

  // ---------------------------------------------------------------- the client gets out of its call

  /** The client publishes what is left of its request. */
  lemma ClientSends(actions: seq<Action>, i: nat, t: Thread) returns (r: seq<Action>, u: Thread)
    requires i < |Exec(actions).threads| && Exec(actions).threads[i] == t && ThreadInv(t)
    ensures actions <= r && i < |Exec(r).threads| && Exec(r).threads[i] == u && ThreadInv(u) && Aside(Exec(actions), Exec(r), i)
    ensures u == t.(pub := Total(t.calls), client := u.client) && (t.client.Sending? || u == t)
    ensures !u.client.Sending? && (InCall(u.client) <==> InCall(t.client)) && (u.client.Exiting? <==> t.client.Exiting?)
  {
    r, u := actions, t;
    if t.client.Sending? {
      hide Exec;
      var k := Total(t.calls) - t.pub;
      ClientKeeps(t, Publish(k));
      r := ClientMoved(actions, i, t, Publish(k));
      u := t.(pub := Total(t.calls));
      ClientKeeps(u, FinishSend);
      var sent := r;
      r := ClientMoved(r, i, u, FinishSend);
      u := ClientStep(u, FinishSend);
      StillAside(Exec(actions), Exec(sent), Exec(r), i);
    }
  }

  /** With all calls executed a client takes its reply and leaves. */
  lemma ClientLeaves(actions: seq<Action>, i: nat, t: Thread) returns (r: seq<Action>, u: Thread)
    requires i < |Exec(actions).threads| && Exec(actions).threads[i] == t && ThreadInv(t)
    requires !t.client.Sending? && t.done == |t.calls|
    ensures actions <= r && i < |Exec(r).threads| && Exec(r).threads[i] == u && ThreadInv(u) && Aside(Exec(actions), Exec(r), i)
    ensures u == t.(inUse := false, client := u.client, replies := u.replies) && !InCall(u.client)
    ensures u.client.Exiting? <==> t.client.Exiting?
  {
    r, u := actions, t;
    hide Exec, Total;
    if u.client.Awaiting? {
      ClientKeeps(u, TakeReply);
      r := ClientMoved(r, i, u, TakeReply);
      u := ClientStep(u, TakeReply);
    }
    if u.client.Leaving? {
      ClientKeeps(u, Leave);
      var taken := r;
      r := ClientMoved(r, i, u, Leave);
      u := ClientStep(u, Leave);
      StillAside(Exec(actions), Exec(taken), Exec(r), i);
    }
  }

  /** Main result. In every reachable state some schedule of an unlocked client and its worker alone brings
      the client's call to its end: everything sent is executed, and the client is out of any call. */
  lemma CallsEnd(actions: seq<Action>, i: nat) returns (r: seq<Action>)
    requires i < |Exec(actions).threads| && Looping(Exec(actions).threads[i].server) && !Exec(actions).threads[i].disabled
    ensures actions <= r && i < |Exec(r).threads| && Aside(Exec(actions), Exec(r), i)
    ensures var t, u := Exec(actions).threads[i], Exec(r).threads[i];
            && Looping(u.server) && (u.client.Exiting? <==> t.client.Exiting?) && u.member == t.member
            && u.calls == t.calls && u.done == |u.calls| && u.pub == Total(u.calls) && !InCall(u.client) && !u.disabled
  {
    RunKeeps(actions);
    var u := Exec(actions).threads[i];
    assert ThreadInv(u);
    hide Exec, ThreadInv, Total, Aside;
    r, u := ClientSends(actions, i, u);
    var sent := r;
    r, u := ServesAll(r, i, u);
    StillAside(Exec(actions), Exec(sent), Exec(r), i);
    var served := r;
    r, u := ClientLeaves(r, i, u);
    StillAside(Exec(actions), Exec(served), Exec(r), i);
  }

  // ---------------------------------------------------------------- reaching the checkpoint

  /** The client is locked out, but published a request after the worker's last look at the ring, or
      after its first lock. */
  ghost predicate Doomed(t: Thread) {
    ReadsLocked(t) && t.pub > t.got && (t.server.SawEmpty? || t.server.BodyEmpty? || (t.server.Receive? && t.server.second))
  }

  ghost predicate Lost(s: State, i: nat) {
    i < |s.threads| && (s.threads[i].server.Panicked? || Doomed(s.threads[i]))
  }

  lemma ServerStaysDoomed(t: Thread, k: nat)
    requires ThreadInv(t) && Doomed(t)
    ensures ServerStep(t, k).server.Panicked? || Doomed(ServerStep(t, k))
  {
    TotalGrows(t.calls, t.done);
    if t.done < |t.calls| { TotalGrows(t.calls, t.done + 1); }
    hide ReplyOk, Total;
  }

  lemma ClientStaysDoomed(t: Thread, a: ClientAction)
    requires ThreadInv(t) && Doomed(t)
    ensures Doomed(ClientStep(t, a))
  {
    hide ReplyOk, Total;
  }

  lemma ServerMoveStaysLost(s: State, j: nat, k: nat, i: nat)
    requires Inv(s) && Lost(s, i) && j < |s.threads|
    ensures Lost(ServerMove(s, j, k), i)
  {
    hide ServerStep, Total, Sums.Sum;
    var t := s.threads[i];
    if j == i {
      assert ThreadInv(t);
      if t.server.Panicked? { PanickedStays(t, k); } else { ServerStaysDoomed(t, k); }
    }
  }

  lemma ClientMoveStaysLost(s: State, j: nat, a: ClientAction, i: nat)
    requires Inv(s) && Lost(s, i) && j < |s.threads|
    ensures Lost(With(s, j, ClientStep(s.threads[j], a)), i)
  {
    ClientLeavesServer(s.threads[j], a);
    hide ClientStep, Total, Sums.Sum;
    if j == i && !s.threads[i].server.Panicked? {
      assert ThreadInv(s.threads[i]);
      ClientStaysDoomed(s.threads[i], a);
    }
  }

  lemma ClientLeavesServer(t: Thread, a: ClientAction)
    ensures ClientStep(t, a).server == t.server
  {
    hide Total;
  }

  lemma OthersStayLost(s: State, a: Action, i: nat)
    requires Lost(s, i) && !a.ServerMoves? && !a.ClientMoves?
    ensures Lost(Step(s, a), i)
  {
    hide Total, Sums.Sum;
  }

  lemma StepStaysLost(s: State, a: Action, i: nat)
    requires Inv(s) && Lost(s, i)
    ensures Lost(Step(s, a), i)
  {
    hide Inv, ServerMove, ControllerMove, ClientStep, Lost;
    match a
    case ServerMoves(j, k) => if j < |s.threads| { ServerMoveStaysLost(s, j, k, i); }
    case ClientMoves(j, m) => if j < |s.threads| { ClientMoveStaysLost(s, j, m, i); }
    case _ => OthersStayLost(s, a, i);
  }

  lemma {:induction false} RunStaysLost(actions: seq<Action>, more: seq<Action>, i: nat)
    requires Lost(Exec(actions), i)
    ensures Lost(Exec(actions + more), i)
  {
    hide Lost, Step, Inv, Exec;
    if more == [] {
      assert actions + more == actions;
    } else {
      var front, a := more[..|more| - 1], more[|more| - 1];
      RunStaysLost(actions, front, i);
      RunKeeps(actions + front);
      assert actions + more == (actions + front) + [a];
      ExecAppend(actions + front, a);
      StepStaysLost(Exec(actions + front), a, i);
    }
  }

  /** Moves to the checkpoint on an empty ring under the lock. */
  function ParkStage(s: Server): nat {
    match s
    case Receive(second, _, took) => (if second then 2 else 5) + if took then 1 else 0
    case SawEmpty(second, _) => if second then 1 else 4
    case _ => 0
  }

  lemma ParkMoves(t: Thread)
    requires ReadsLocked(t) && Available(t) == 0
    requires (t.server.Receive? && t.server.cur == 0) || (t.server.SawEmpty? && t.server.cur == 0)
    ensures var u := ServerStep(t, 0);
            && u == t.(server := u.server) && ParkStage(u.server) < ParkStage(t.server)
            && (u.server.Entered? || (u.server.Receive? && u.server.cur == 0) || (u.server.SawEmpty? && u.server.cur == 0))
  {
  }

  lemma {:induction false} Parks(actions: seq<Action>, i: nat, t: Thread) returns (r: seq<Action>)
    requires i < |Exec(actions).threads| && Exec(actions).threads[i] == t
    requires ReadsLocked(t) && Available(t) == 0
    requires (t.server.Receive? && t.server.cur == 0) || (t.server.SawEmpty? && t.server.cur == 0)
    ensures actions <= r && i < |Exec(r).threads| && Exec(r).threads[i] == t.(server := Entered) && Aside(Exec(actions), Exec(r), i)
    decreases ParkStage(t.server)
  {
    hide Exec, ServerStep, Available, ReadsLocked, Aside;
    ParkMoves(t);
    r := ServerMoved(actions, i, t, 0);
    var u := ServerStep(t, 0);
    StillLocked(t, u);
    if !u.server.Entered? {
      var moved := r;
      r := Parks(r, i, u);
      StillAside(Exec(actions), Exec(moved), Exec(r), i);
    }
  }

  lemma StillLocked(t: Thread, u: Thread)
    requires u == t.(server := u.server)
    ensures ReadsLocked(u) == ReadsLocked(t) && Available(u) == Available(t)
  {
  }

  lemma NotDoomedServes(t: Thread)
    requires ThreadInv(t) && Looping(t.server) && !Doomed(t) && !t.client.Exiting?
    ensures !ReadsLocked(t) || Calm(t.server) || t.done == |t.calls|
  {
    TotalGrows(t.calls, t.done);
    if t.done < |t.calls| { TotalGrows(t.calls, t.done + 1); }
    hide ReplyOk, Total;
  }

  lemma QuietThread(t: Thread)
    requires ThreadInv(t) && Looping(t.server) && t.done == |t.calls| && !InCall(t.client) && !t.client.Exiting?
    ensures Available(t) == 0 && ((t.server.Receive? && t.server.cur == 0) || (t.server.SawEmpty? && t.server.cur == 0))
  {
    assert t.calls[..t.done] == t.calls;
    hide ReplyOk, Total;
  }

  /** A client that is sending is not doomed, nor once it has sent all. */
  lemma SentIsNotDoomed(t: Thread, u: Thread)
    requires ThreadInv(t) && u == t.(pub := u.pub, client := u.client) && (t.client.Sending? || u == t) && !Doomed(t)
    ensures !Doomed(u)
  {
    hide ReplyOk, Total;
  }

  lemma NotDoomedParks(actions: seq<Action>, i: nat) returns (r: seq<Action>)
    requires i < |Exec(actions).threads|
    requires var t := Exec(actions).threads[i]; t.disabled && Looping(t.server) && !t.client.Exiting? && !Doomed(t)
    ensures actions <= r && i < |Exec(r).threads| && Exec(r).threads[i].server.Entered? && Aside(Exec(actions), Exec(r), i)
    ensures var t, u := Exec(actions).threads[i], Exec(r).threads[i]; u.calls == t.calls && u.member == t.member
  {
    RunKeeps(actions);
    var t := Exec(actions).threads[i];
    assert ThreadInv(t);
    hide Exec, ThreadInv, Total, Doomed, Aside;
    var u;
    r, u := ClientSends(actions, i, t);
    SentIsNotDoomed(t, u);
    NotDoomedServes(u);
    var sent := r;
    r, u := ServesAll(r, i, u);
    StillAside(Exec(actions), Exec(sent), Exec(r), i);
    var served := r;
    r, u := ClientLeaves(r, i, u);
    StillAside(Exec(actions), Exec(served), Exec(r), i);
    QuietThread(u);
    var quiet := r;
    r := Parks(r, i, u);
    StillAside(Exec(actions), Exec(quiet), Exec(r), i);
  }

  /** Main result, exactly: a worker whose client is locked and has not exited can still reach its
      checkpoint if and only if no request was published between its last look at the ring, or its
      first lock, and the client's leaving. If one was, it panics or hangs in every continuation. */
  lemma ParksExactly(actions: seq<Action>, i: nat)
    requires i < |Exec(actions).threads|
    requires var t := Exec(actions).threads[i]; t.disabled && Looping(t.server) && !t.client.Exiting?
    ensures Doomed(Exec(actions).threads[i]) <==> forall r :: actions <= r ==> Lost(Exec(r), i)
    ensures !Doomed(Exec(actions).threads[i]) <==>
            exists r :: actions <= r && i < |Exec(r).threads| && Exec(r).threads[i].server.Entered?
  {
    var t := Exec(actions).threads[i];
    hide Exec, Doomed;
    if Doomed(t) {
      forall r | actions <= r ensures Lost(Exec(r), i) {
        RunStaysLost(actions, r[|actions|..], i);
        assert r == actions + r[|actions|..];
      }
      LostIsNotEntered(i);
    } else {
      var r := NotDoomedParks(actions, i);
      LostIsNotEntered(i);
    }
  }

  lemma LostIsNotEntered(i: nat)
    ensures forall s :: Lost(s, i) ==> !s.threads[i].server.Entered?
  {
  }
}
