/** Progress of the mirrored ring: from every reachable state some schedule of the sender, its card and the
    receiver delivers everything published and lets the sender go on. */
module RdmaProgress {
  import opened Bytes
  import opened RingIndex
  import opened RdmaRing

  // ---------------------------------------------------------------- a sender inside flush_out

  /** A sender waiting for a read has posted it last, and inside `flush_out` all that was published has
      been flushed. */
  ghost predicate SenderOk(s: State) {
    && (s.sender.Waiting? ==> s.queue != [] && s.queue[|s.queue| - 1].ReadHead?)
    && (!s.sender.Ready? ==> s.at.last == |s.published|)
  }

  lemma StepKeepsSender(s: State, a: Action)
    requires SenderOk(s)
    ensures SenderOk(Step(s, a))
  {
    hide Splice, WriteLen, ReadLen, Used;
  }

  ghost predicate Reaches(cap: nat, actions: seq<Action>, s: State)
    requires cap > 0
  {
    Exec(Init(cap), actions) == s && Inv(s) && SenderOk(s) && |s.lbuf| == cap
  }

  lemma StepKeepsSize(s: State, a: Action)
    requires Inv(s)
    ensures |Step(s, a).lbuf| == |s.lbuf|
  {
    hide Leads, Holds;
  }

  lemma {:induction false} RunReaches(cap: nat, actions: seq<Action>)
    requires cap > 0
    ensures Reaches(cap, actions, Exec(Init(cap), actions))
  {
    hide Step, Inv, SenderOk;
    RunKeeps(cap, actions);
    if actions == [] {
      InitReaches(cap);
    } else {
      var front := actions[..|actions| - 1];
      RunReaches(cap, front);
      StepKeepsSize(Exec(Init(cap), front), actions[|actions| - 1]);
      StepKeepsSender(Exec(Init(cap), front), actions[|actions| - 1]);
    }
  }

  lemma InitReaches(cap: nat)
    requires cap > 0
    ensures SenderOk(Init(cap)) && |Init(cap).lbuf| == cap
  {
  }

  lemma OneStep(cap: nat, actions: seq<Action>, s: State, a: Action) returns (r: seq<Action>, t: State)
    requires cap > 0 && Reaches(cap, actions, s)
    ensures Reaches(cap, r, t) && t == Step(s, a) && actions <= r
  {
    hide Step, Inv, SenderOk;
    r, t := actions + [a], Step(s, a);
    assert r[..|actions|] == actions;
    StepKeeps(s, a);
    StepKeepsSize(s, a);
    StepKeepsSender(s, a);
  }

  // ---------------------------------------------------------------- card and receiver alone

  /** What the card leaves alone. */
  ghost predicate CardLeaves(s: State, t: State) {
    && t.published == s.published && t.received == s.received && t.at.last == s.at.last
    && t.ltail == s.ltail && t.lastTail == s.lastTail
    && (t.sender.Ready? <==> s.sender.Ready?)
  }

  lemma CardRuns(s: State)
    requires Inv(s) && SenderOk(s) && s.queue != []
    ensures var t := Step(s, Card);
            && CardLeaves(s, t) && t.queue == s.queue[1..]
            && (s.queue[0].ReadHead? ==> t.at.lhead == |s.received|)
            && (s.queue[0].ReadHead? && s.sender.Waiting? ==> t.sender.Testing?)
  {
    hide Leads, Holds, Splice;
  }

  /** The card works off its queue; a read posted last leaves the sender with the receiver's own head. */
  lemma {:induction false} CardDrains(cap: nat, actions: seq<Action>, s: State) returns (r: seq<Action>, t: State)
    requires cap > 0 && Reaches(cap, actions, s)
    ensures Reaches(cap, r, t) && actions <= r
    ensures CardLeaves(s, t) && t.queue == [] && !t.sender.Waiting?
    ensures s.queue == [] ==> t == s
    ensures s.queue != [] && s.queue[|s.queue| - 1].ReadHead? ==> t.at.lhead == |t.received|
    decreases |s.queue|
  {
    hide Step, Inv;
    r, t := actions, s;
    if s.queue != [] {
      CardRuns(s);
      r, t := OneStep(cap, actions, s, Card);
      r, t := CardDrains(cap, r, t);
    }
  }

  lemma TakeAdvances(s: State)
    requires Inv(s) && |s.received| < s.at.rtail
    ensures var t := Step(s, Take(|s.lbuf|));
            t == s.(received := t.received, rhead := t.rhead) && |s.received| < |t.received|
  {
    hide Leads, Holds;
    UsedIs(|s.received|, s.at.rtail, |s.lbuf|);
    assert s.rhead != s.rtail;
  }

  /** The receiver takes all the remote tail covers. */
  lemma {:induction false} ReceiverDrains(cap: nat, actions: seq<Action>, s: State) returns (r: seq<Action>, t: State)
    requires cap > 0 && Reaches(cap, actions, s)
    ensures Reaches(cap, r, t) && actions <= r
    ensures t == s.(received := t.received, rhead := t.rhead) && |t.received| == s.at.rtail
    decreases s.at.rtail - |s.received|
  {
    TakenFits(s);
    hide Step, Inv;
    r, t := actions, s;
    if |s.received| < s.at.rtail {
      TakeAdvances(s);
      r, t := OneStep(cap, actions, s, Take(|s.lbuf|));
      TakenFits(t);
      r, t := ReceiverDrains(cap, r, t);
    }
  }

  lemma TakenFits(s: State)
    requires Inv(s)
    ensures |s.received| <= s.at.rtail && s.received <= s.published
    ensures s.queue == [] ==> s.at.rtail == s.at.last
  {
    hide Holds;
  }

  /** Card and receiver together deliver whatever has been flushed. */
  lemma FlushedArrives(cap: nat, actions: seq<Action>, s: State) returns (r: seq<Action>, t: State)
    requires cap > 0 && Reaches(cap, actions, s)
    ensures Reaches(cap, r, t) && actions <= r
    ensures t.published == s.published && t.at.last == s.at.last && |t.received| == s.at.last
    ensures t.queue == [] && !t.sender.Waiting? && (t.sender.Ready? <==> s.sender.Ready?)
  {
    hide Step, Inv;
    r, t := CardDrains(cap, actions, s);
    TakenFits(t);
    r, t := ReceiverDrains(cap, r, t);
  }

  // ---------------------------------------------------------------- the sender gets out of flush_out

  lemma TestedIs(s: State)
    requires Inv(s) && s.sender.Testing?
    ensures IsFull(|s.lbuf|, s.lhead, s.ltail) ==> Step(s, Test) == s.(queue := s.queue + [ReadHead], sender := Waiting)
    ensures !IsFull(|s.lbuf|, s.lhead, s.ltail) ==> Step(s, Test) == s.(sender := Ready)
  {
  }

  lemma FreshIsNotFull(s: State)
    requires Inv(s) && |s.lbuf| > 1 && s.at.lhead == |s.published|
    ensures !IsFull(|s.lbuf|, s.lhead, s.ltail)
  {
    hide Leads, Holds;
  }

  /** With everything delivered the sender's loop ends, after at most one read. */
  lemma SenderReturns(cap: nat, actions: seq<Action>, s: State) returns (r: seq<Action>, t: State)
    requires cap > 1 && Reaches(cap, actions, s)
    requires !s.sender.Waiting? && s.queue == [] && |s.received| == |s.published|
    ensures Reaches(cap, r, t) && actions <= r
    ensures t.sender.Ready? && t.queue == [] && t.published == s.published && t.received == s.received
    ensures t.at.last == s.at.last
  {
    r, t := actions, s;
    if s.sender.Testing? {
      TestedIs(s);
      r, t := OneStep(cap, actions, s, Test);
      hide Step, Inv, IsFull;
      if IsFull(|s.lbuf|, s.lhead, s.ltail) {
        r, t := CardDrains(cap, r, t);
        FreshIsNotFull(t);
        TestedIs(t);
        r, t := OneStep(cap, r, t, Test);
      }
    }
  }

  lemma FlushedIs(s: State)
    requires Inv(s) && s.sender.Ready?
    ensures var t := Step(s, Flush); t.published == s.published && t.at.last == |s.published| && t.sender.Testing?
  {
  }

  /** Main result. From every reachable state some schedule delivers all that was ever published, leaves
      nothing posted, and lets the sender out of `flush_out`, if the ring can hold a byte at all. */
  lemma EverythingArrives(cap: nat, actions: seq<Action>) returns (r: seq<Action>)
    requires cap > 1
    ensures actions <= r
    ensures var s, t := Exec(Init(cap), actions), Exec(Init(cap), r);
            t.published == s.published == t.received && t.queue == [] && t.sender.Ready?
  {
    hide Step, Inv, Exec, Init, SenderOk;
    RunReaches(cap, actions);
    var s := Exec(Init(cap), actions);
    var t := s;
    r := actions;
    r, t := FlushedArrives(cap, r, t);
    if !t.sender.Ready? {
      InsideFlush(t);
      r, t := SenderReturns(cap, r, t);
    }
    FlushedIs(t);
    r, t := OneStep(cap, r, t, Flush);
    r, t := FlushedArrives(cap, r, t);
    r, t := SenderReturns(cap, r, t);
    TakenFits(t);
  }

  lemma InsideFlush(s: State)
    requires SenderOk(s) && !s.sender.Ready?
    ensures s.at.last == |s.published|
  {
  }
}
