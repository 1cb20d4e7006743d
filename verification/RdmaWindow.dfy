/** Selective signaling on the RDMA send queue: only every 16th write and every read reports its
    completion, completions arrive in order, and the sender polls just often enough. */
module RdmaWindow {

  const SIGNAL_INTERVAL: nat := 16
  const MAX_SEND_WR: nat := 128
  const BATCH: nat := MAX_SEND_WR / SIGNAL_INTERVAL

  /** Between operations, or inside `poll_batch` waiting for a completion of at least `target`. */
  datatype Mode = Idle | Polling(target: nat)

  datatype State = State(
    next: nat, lastPoll: nat, mode: Mode,
    done: nat,                    // requests the card has completed, in order
    queue: seq<nat>,              // completions reported and not polled yet
    readIds: set<nat>,            // requests posted as reads
    known: nat)                   // requests whose completion the sender has seen implied; read by no step

  datatype Action = PostWrite | PostRead | Complete | Poll(n: nat)

  const INIT: State := State(0, 0, Idle, 0, [], {}, 0)

  predicate Signaled(readIds: set<nat>, id: nat) { id in readIds || id % SIGNAL_INTERVAL == 0 }

  /** `write_remote` and `write_tail_remote`: post, then poll if the window is nearly used up. */
  function PostWriteStep(s: State): State {
    var id := s.next;
    s.(next := id + 1,
       mode := if s.lastPoll + (MAX_SEND_WR - SIGNAL_INTERVAL) < id then Polling(s.lastPoll) else Idle)
  }

  /** `read_remote`: post a signaled request and poll until it is seen. */
  function PostReadStep(s: State): State {
    s.(next := s.next + 1, readIds := s.readIds + {s.next}, mode := Polling(s.next))
  }

  function CompleteStep(s: State): State {
    if s.done >= s.next then s
    else s.(done := s.done + 1, queue := if Signaled(s.readIds, s.done) then s.queue + [s.done] else s.queue)
  }

  /** One non-empty answer of the completion queue, of at most a batch. */
  function PollStep(s: State, n: nat): State
    requires s.mode.Polling?
  {
    if n == 0 || n > |s.queue| || n > BATCH then s
    else
      var last := s.queue[n - 1];
      s.(lastPoll := last, known := last + 1, queue := s.queue[n..], mode := if last >= s.mode.target then Idle else s.mode)
  }

  function Step(s: State, a: Action): State {
    match a
    case PostWrite => if s.mode.Idle? then PostWriteStep(s) else s
    case PostRead => if s.mode.Idle? then PostReadStep(s) else s
    case Complete => CompleteStep(s)
    case Poll(n) => if s.mode.Polling? then PollStep(s, n) else s
  }

  // ---------------------------------------------------------------- the invariant

  /** The completion queue holds, in order, the signaled requests completed and not yet polled. */
  ghost predicate Reported(queue: seq<nat>, readIds: set<nat>, known: nat, done: nat) {
    && (forall i, j :: 0 <= i < j < |queue| ==> queue[i] < queue[j])
    && (forall id :: id in queue <==> known <= id < done && Signaled(readIds, id))
  }

  /** `last_poll` starts at 0 as if request 0 had been seen, which costs the window one place. */
  ghost predicate Seen(lastPoll: nat, known: nat) {
    lastPoll == if known == 0 then 0 else known - 1
  }

  /** The window between operations: one wider while request 0 is the last one seen. */
  ghost predicate Narrow(next: nat, known: nat) {
    next <= known + 112 || (known <= 1 && next <= known + 113)
  }

  ghost predicate ModeInv(mode: Mode, next: nat, known: nat, readIds: set<nat>) {
    match mode
    case Idle => Narrow(next, known) && forall id :: id in readIds ==> id < known
    case Polling(target) =>
      && next > 0 && Narrow(next - 1, known)
      && (if target == next - 1 && target in readIds
          then known < next && forall id :: id in readIds ==> id < known || id == target
          else Seen(target, known) && known + 112 < next && forall id :: id in readIds ==> id < known)
  }

  ghost predicate Inv(s: State) {
    && s.known <= s.done <= s.next && Seen(s.lastPoll, s.known)
    && Reported(s.queue, s.readIds, s.known, s.done)
    && (forall id :: id in s.readIds ==> id < s.next)
    && ModeInv(s.mode, s.next, s.known, s.readIds)
  }

  lemma PostWriteKeeps(s: State)
    requires Inv(s) && s.mode.Idle?
    ensures Inv(PostWriteStep(s))
  {
  }

  lemma PostReadKeeps(s: State)
    requires Inv(s) && s.mode.Idle?
    ensures Inv(PostReadStep(s))
  {
  }

  lemma CompleteKeeps(s: State)
    requires Inv(s)
    ensures Inv(CompleteStep(s))
  {
    if s.done < s.next {
      var queue := CompleteStep(s).queue;
      assert forall i :: 0 <= i < |s.queue| ==> s.queue[i] in s.queue;
      assert forall id :: id in queue <==> id in s.queue || (id == s.done && Signaled(s.readIds, s.done));
    }
  }

  /** Taking a prefix of the completion queue. */
  lemma PolledPrefix(queue: seq<nat>, readIds: set<nat>, known: nat, done: nat, n: nat)
    requires Reported(queue, readIds, known, done) && 0 < n <= |queue|
    ensures Reported(queue[n..], readIds, queue[n - 1] + 1, done)
    ensures known <= queue[n - 1] < done && Signaled(readIds, queue[n - 1])
  {
    var last, rest := queue[n - 1], queue[n..];
    assert last in queue;
    forall id
      ensures id in rest <==> last + 1 <= id < done && Signaled(readIds, id)
    {
      if id in rest {
        var i :| 0 <= i < |rest| && rest[i] == id;
        assert queue[n - 1] < queue[n + i] == id && queue[n + i] in queue;
      }
      if last + 1 <= id < done && Signaled(readIds, id) {
        assert id in queue;
        var i :| 0 <= i < |queue| && queue[i] == id;
        assert i >= n && rest[i - n] == id;
      }
    }
  }

  lemma PollKeeps(s: State, n: nat)
    requires Inv(s) && s.mode.Polling?
    ensures Inv(PollStep(s, n))
  {
    if 0 < n <= |s.queue| && n <= BATCH {
      PolledPrefix(s.queue, s.readIds, s.known, s.done, n);
      hide Reported;
    }
  }

  lemma StepKeeps(s: State, a: Action)
    requires Inv(s)
    ensures Inv(Step(s, a))
  {
    hide Inv, PostWriteStep, PostReadStep, CompleteStep, PollStep;
    match a
    case PostWrite => if s.mode.Idle? { PostWriteKeeps(s); }
    case PostRead => if s.mode.Idle? { PostReadKeeps(s); }
    case Complete => CompleteKeeps(s);
    case Poll(n) => if s.mode.Polling? { PollKeeps(s, n); }
  }

  ghost function Exec(actions: seq<Action>): State {
    if actions == [] then INIT else Step(Exec(actions[..|actions| - 1]), actions[|actions| - 1])
  }

  lemma {:induction false} RunKeeps(actions: seq<Action>)
    ensures Inv(Exec(actions))
  {
    if actions != [] {
      hide Inv, Step;
      RunKeeps(actions[..|actions| - 1]);
      StepKeeps(Exec(actions[..|actions| - 1]), actions[|actions| - 1]);
    } else {
      assert Inv(INIT);
    }
  }

  /** Main result, part one: whatever the mix of writes, tail updates and reads and however late the
      card is, the requests not known complete fit the send queue, with 114
      of its 128 places used at most. */
  lemma WindowNeverOverflows(actions: seq<Action>)
    ensures var s := Exec(actions); s.next - s.known <= 114 < MAX_SEND_WR
  {
    RunKeeps(actions);
  }

  function Burst(n: nat): seq<Action> { seq(n, _ => PostWrite) }

  /** 114 is reached: a burst of writes on a card that has completed nothing. */
  lemma {:induction false} WindowIsTight(n: nat)
    requires n <= 114
    ensures var s := Exec(Burst(n)); s.next == n && s.known == 0 && s.lastPoll == 0 && (n < 114 ==> s.mode.Idle?)
  {
    if n > 0 {
      assert Burst(n)[..n - 1] == Burst(n - 1);
      WindowIsTight(n - 1);
    }
  }

  /** Part two: every poll has something to find. While the sender polls, some posted request that
      reports its completion, at least the awaited one, has not been polled yet: it is in the
      completion queue, or the card has still to complete it. */
  lemma EveryPollIsAnswered(actions: seq<Action>)
    ensures var s := Exec(actions);
            s.mode.Polling? ==>
              exists id :: s.mode.target <= id < s.next && Signaled(s.readIds, id) && (id in s.queue || s.done <= id)
  {
    RunKeeps(actions);
    var s := Exec(actions);
    if s.mode.Polling? {
      var id := if s.mode.target == s.next - 1 && s.mode.target in s.readIds then s.mode.target else NextSignal(s.known);
      assert s.known <= id < s.next && Signaled(s.readIds, id);
      assert s.mode.target <= id;
      assert id in s.queue || s.done <= id;
    }
  }

  function NextSignal(known: nat): (id: nat)
    ensures known <= id < known + SIGNAL_INTERVAL && id % SIGNAL_INTERVAL == 0
  {
    (known + 15) / 16 * 16
  }

  // ---------------------------------------------------------------- polls end

  lemma OneStep(actions: seq<Action>, a: Action) returns (r: seq<Action>)
    ensures r == actions + [a] && Exec(r) == Step(Exec(actions), a)
  {
    r := actions + [a];
    assert r[..|actions|] == actions;
  }

  /** The card completes everything posted. */
  lemma {:induction false} CardCatchesUp(actions: seq<Action>) returns (r: seq<Action>)
    ensures actions <= r
    ensures var s, t := Exec(actions), Exec(r); t.done == t.next == s.next && t.mode == s.mode && t.readIds == s.readIds
    decreases Exec(actions).next - Exec(actions).done
  {
    hide Inv, Exec;
    RunKeeps(actions);
    Counted(Exec(actions));
    r := actions;
    if Exec(actions).done < Exec(actions).next {
      r := OneStep(actions, Complete);
      r := CardCatchesUp(r);
    }
  }

  lemma Counted(s: State)
    requires Inv(s)
    ensures s.done <= s.next
  {
  }

  /** Whole batches are polled, eight at a time. */
  lemma {:induction false} PollsEnd(actions: seq<Action>) returns (r: seq<Action>)
    requires Exec(actions).mode.Polling? && Exec(actions).done == Exec(actions).next
    ensures actions <= r && Exec(r).mode.Idle? && Exec(r).next == Exec(actions).next && Exec(r).lastPoll >= Exec(actions).mode.target
    decreases |Exec(actions).queue|
  {
    hide Inv, Exec;
    EveryPollIsAnswered(actions);
    var s := Exec(actions);
    var n := if |s.queue| < 8 then |s.queue| else 8;
    r := OneStep(actions, Poll(n));
    if Exec(r).mode.Polling? { r := PollsEnd(r); }
  }

  /** Part three: from every reachable state in which the sender polls, some schedule of the card and the
      sender's own polls ends the poll, with nothing more posted. */
  lemma EveryPollEnds(actions: seq<Action>) returns (r: seq<Action>)
    requires Exec(actions).mode.Polling?
    ensures actions <= r && Exec(r).mode.Idle? && Exec(r).next == Exec(actions).next
  {
    hide Inv, Exec;
    r := CardCatchesUp(actions);
    r := PollsEnd(r);
  }
}
