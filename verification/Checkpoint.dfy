/** A worker process taking checkpoints: any number of client/worker thread pairs, the controller that
    requests a checkpoint and dumps the process, and the barrier they all pass twice. */
module Checkpoint {
  import opened Quiesce
  import opened Sums

  datatype Mode = Kill | LeaveRunning | Detach

  /** `std::sync::Barrier`: the last of `total` arrivals starts a new generation. */
  datatype Barrier = Barrier(total: nat, count: nat, gen: nat)

  function Arrive(b: Barrier): Barrier {
    if b.count + 1 == b.total then b.(count := 0, gen := b.gen + 1) else b.(count := b.count + 1)
  }

  /** Program points of `request_checkpoint` and `block_and_dump_process_state`. */
  datatype Controller =
    | Idle
    | Locking(next: nat)                 // setting WRITE_DISABLED, thread by thread
    | Arriving1 | CWait1(gen: nat)
    | DumpKernels | DumpMemory
    | Arriving2 | CWait2(gen: nat)
    | Finishing                          // waiting for the read guards, then clearing the statics

  datatype State = State(
    threads: seq<Thread>, ctl: Controller, barrier: Barrier, mode: Mode,
    device: nat,                         // calls executed so far: the version of kernels and memory
    kernelDump: nat, memoryDump: nat)    // the version the controller's last dump recorded

  const INIT := State([], Idle, Barrier(1, 0, 0), Kill, 0, 0, 0)

  datatype Action =
    | Spawn
    | ClientMoves(i: nat, a: ClientAction)
    | ServerMoves(i: nat, k: nat)
    | ServerPanics(i: nat)               // any panic outside checkpoint_thread
    | Request(mode: Mode)
    | ControllerMoves

  predicate Live(t: Thread) { !t.server.Stopped? && !t.server.Panicked? }

  ghost function With(s: State, i: nat, t: Thread): State
    requires i < |s.threads|
  {
    s.(threads := s.threads[i := t])
  }

  ghost function ServerMove(s: State, i: nat, k: nat): State
    requires i < |s.threads|
  {
    var t := s.threads[i];
    var b := s.barrier;
    if CanExecute(t) then With(s, i, Execute(t)).(device := s.device + 1)
    else match t.server
      case Entered =>
        if s.ctl.Idle? then With(s, i, t.(server := Panicked))   // no BARRIER to unwrap
        else With(s, i, t.(server := if Arrive(b).gen == b.gen then Wait1(b.gen) else Dump)).(barrier := Arrive(b))
      case Wait1(g) => if b.gen == g then s else With(s, i, t.(server := Dump))
      case Dump => With(s, i, t.(server := Dumped, handleDump := t.done, deviceDump := s.device))
      case Dumped =>
        With(s, i, t.(server := if Arrive(b).gen == b.gen then Wait2(b.gen) else Unlock)).(barrier := Arrive(b))
      case Wait2(g) => if b.gen == g then s else With(s, i, t.(server := Unlock))
      case Unlock =>                     // a detached client stays locked
        With(s, i, t.(disabled := t.disabled && s.mode.Detach?,
                      server := if s.mode.LeaveRunning? then Receive(false, 0, false) else Stopped))
      case _ => With(s, i, ServerStep(t, k))
  }

  ghost function Enlist(threads: seq<Thread>): (r: seq<Thread>)
    ensures |r| == |threads|
    ensures forall i :: 0 <= i < |r| ==> r[i] == threads[i].(member := Live(threads[i]))
  {
    if threads == [] then []
    else Enlist(threads[..|threads| - 1]) + [threads[|threads| - 1].(member := Live(threads[|threads| - 1]))]
  }

  ghost function ControllerMove(s: State): State {
    var b := s.barrier;
    match s.ctl
    case Idle => s
    case Locking(j) =>
      if j < |s.threads| then
        With(s, j, s.threads[j].(disabled := s.threads[j].disabled || s.threads[j].member)).(ctl := Locking(j + 1))
      else s.(ctl := Arriving1)
    case Arriving1 => s.(ctl := if Arrive(b).gen == b.gen then CWait1(b.gen) else DumpKernels, barrier := Arrive(b))
    case CWait1(g) => if b.gen == g then s else s.(ctl := DumpKernels)
    case DumpKernels => s.(ctl := DumpMemory, kernelDump := if s.mode.Detach? then s.kernelDump else s.device)
    case DumpMemory => s.(ctl := Arriving2, memoryDump := if s.mode.Detach? then s.memoryDump else s.device)
    case Arriving2 => s.(ctl := if Arrive(b).gen == b.gen then CWait2(b.gen) else Finishing, barrier := Arrive(b))
    case CWait2(g) => if b.gen == g then s else s.(ctl := Finishing)
    case Finishing => if exists t :: t in s.threads && InCheckpoint(t.server) then s else s.(ctl := Idle)
  }

  ghost function Step(s: State, a: Action): State {
    match a
    case Spawn => if s.ctl.Idle? then s.(threads := s.threads + [FRESH]) else s
    case ClientMoves(i, m) => if i < |s.threads| then With(s, i, ClientStep(s.threads[i], m)) else s
    case ServerMoves(i, k) => if i < |s.threads| then ServerMove(s, i, k) else s
    case ServerPanics(i) =>
      if i < |s.threads| && Live(s.threads[i]) && !InCheckpoint(s.threads[i].server)
      then With(s, i, s.threads[i].(server := Panicked)) else s
    case Request(mode) =>
      if s.ctl.Idle? then
        var threads := Enlist(s.threads);
        s.(threads := threads, ctl := Locking(0), mode := mode, barrier := Barrier(Sum(threads, Members) + 1, 0, 0))
      else s
    case ControllerMoves => ControllerMove(s)
  }

  ghost function Members(t: Thread): nat { if t.member then 1 else 0 }

  ghost function Done(t: Thread): nat { t.done }

  /** Calls of this thread that the checkpoint accounts for. */
  ghost function Accounted(t: Thread): nat { if t.member then t.handleDump else t.done }

  ghost predicate HasArrived(gen: nat, s: Server) {
    if gen == 0 then s.Wait1? else if gen == 1 then s.Wait2? else false
  }

  ghost function Arrived(gen: nat): Thread -> nat {
    (t: Thread) => if t.member && HasArrived(gen, t.server) then 1 else 0
  }

  /** Where a thread may be, given the barrier generation. */
  ghost predicate PhaseOk(t: Thread, active: bool, gen: nat, device: nat) {
    if !active then !InCheckpoint(t.server) && (t.disabled ==> t.server.Stopped?)
    else if !t.member then !Live(t) && (t.disabled ==> t.server.Stopped?)
    else if gen == 0 then InCheckpoint(t.server) ==> t.server.Entered? || t.server == Wait1(0)
    else if gen == 1 then
      && (t.server == Wait1(0) || t.server.Dump? || t.server.Dumped? || t.server == Wait2(1))
      && (t.server.Dumped? || t.server.Wait2? ==> t.handleDump == t.done && t.deviceDump == device)
    else
      && (InCheckpoint(t.server) ==> t.server == Wait2(1) || t.server.Unlock?)
      && (t.disabled ==> InCheckpoint(t.server) || t.server.Stopped?)
  }

  ghost predicate ThreadsOk(threads: seq<Thread>, active: bool, gen: nat, device: nat) {
    forall i :: 0 <= i < |threads| ==> ThreadInv(threads[i]) && PhaseOk(threads[i], active, gen, device)
  }

  ghost predicate CountOk(threads: seq<Thread>, ctl: Controller, b: Barrier) {
    && b.total == Sum(threads, Members) + 1
    && b.count < b.total
    && b.count == Sum(threads, Arrived(b.gen)) + (if (b.gen == 0 && ctl.CWait1?) || (b.gen == 1 && ctl.CWait2?) then 1 else 0)
  }

  ghost predicate ControllerOk(ctl: Controller, gen: nat, recorded: bool, device: nat, kernels: nat, memory: nat) {
    if gen == 0 then ctl.Locking? || ctl.Arriving1? || ctl == CWait1(0)
    else if gen == 1 then
      && (ctl == CWait1(0) || ctl.DumpKernels? || ctl.DumpMemory? || ctl.Arriving2? || ctl == CWait2(1))
      && (recorded && (ctl.DumpMemory? || ctl.Arriving2? || ctl.CWait2?) ==> kernels == device)
      && (recorded && (ctl.Arriving2? || ctl.CWait2?) ==> memory == device)
    else gen == 2 && (ctl == CWait2(1) || ctl.Finishing?)
  }

  /** All the dumps of this checkpoint describe one and the same moment. */
  ghost predicate CutOk(threads: seq<Thread>, recorded: bool, kernels: nat, memory: nat) {
    && (recorded ==> kernels == memory == Sum(threads, Accounted))
    && (forall i :: 0 <= i < |threads| && threads[i].member ==> threads[i].deviceDump == Sum(threads, Accounted))
  }

  ghost predicate Inv(s: State) {
    var active := !s.ctl.Idle?;
    && ThreadsOk(s.threads, active, s.barrier.gen, s.device)
    && s.device == Sum(s.threads, Done)
    && (active ==>
          && CountOk(s.threads, s.ctl, s.barrier)
          && ControllerOk(s.ctl, s.barrier.gen, !s.mode.Detach?, s.device, s.kernelDump, s.memoryDump)
          && (s.barrier.gen == 2 ==> CutOk(s.threads, !s.mode.Detach?, s.kernelDump, s.memoryDump)))
  }

  /** A thread moved on its own: nothing the barrier or the controller relies on changed. */
  lemma ReplaceThread(s: State, i: nat, t': Thread)
    requires Inv(s) && i < |s.threads|
    requires ThreadInv(t') && PhaseOk(t', !s.ctl.Idle?, s.barrier.gen, s.device)
    requires var t := s.threads[i];
      && t'.member == t.member && t'.done == t.done
      && (!s.ctl.Idle? ==> Arrived(s.barrier.gen)(t') == Arrived(s.barrier.gen)(t))
      && (!s.ctl.Idle? && s.barrier.gen == 2 ==> t'.handleDump == t.handleDump && t'.deviceDump == t.deviceDump)
    ensures Inv(With(s, i, t'))
  {
    hide ThreadInv, PhaseOk, ControllerOk, InCheckpoint;
    SumUpdate(s.threads, Done, i, t');
    SumUpdate(s.threads, Members, i, t');
    SumUpdate(s.threads, Arrived(s.barrier.gen), i, t');
    SumUpdate(s.threads, Accounted, i, t');
  }

  lemma ClientMoveKeeps(s: State, i: nat, a: ClientAction)
    requires Inv(s) && i < |s.threads|
    ensures Inv(With(s, i, ClientStep(s.threads[i], a)))
  {
    hide ThreadInv;
    ClientKeeps(s.threads[i], a);
    ReplaceThread(s, i, ClientStep(s.threads[i], a));
  }

  /** The receive loop, outside any barrier. */
  lemma ReceiveLoopKeeps(s: State, i: nat, k: nat)
    requires Inv(s) && i < |s.threads| && !InCheckpoint(s.threads[i].server)
    ensures Inv(With(s, i, ServerStep(s.threads[i], k)))
  {
    var t := s.threads[i];
    ServerKeeps(t, k);
    ReceiveLoopShape(t, k);
    hide ThreadInv, ServerStep;
    ReplaceThread(s, i, ServerStep(t, k));
  }

  /** Leaving the receive loop for a checkpoint takes a second lock, hence a flag that is still set. */
  lemma ReceiveLoopShape(t: Thread, k: nat)
    requires ThreadInv(t) && !InCheckpoint(t.server)
    ensures var t' := ServerStep(t, k);
      && t'.member == t.member && t'.done == t.done && t'.disabled == t.disabled
      && t'.handleDump == t.handleDump && t'.deviceDump == t.deviceDump
      && (InCheckpoint(t'.server) ==> t'.server.Entered? && t.disabled)
      && (t.server.Stopped? ==> t'.server.Stopped?) && (t.server.Panicked? ==> t'.server.Panicked?)
  {
    hide ReplyOk, ClientOk, Total;
  }

  lemma PanicKeeps(s: State, i: nat)
    requires Inv(s) && i < |s.threads| && Live(s.threads[i]) && !InCheckpoint(s.threads[i].server)
    ensures Inv(With(s, i, s.threads[i].(server := Panicked)))
  {
    hide ReplyOk, ClientOk;
    ReplaceThread(s, i, s.threads[i].(server := Panicked));
  }

  /** Executing a call moves the device version; no thread can do so while the world is stopped. */
  lemma ExecuteMoveKeeps(s: State, i: nat)
    requires Inv(s) && i < |s.threads| && CanExecute(s.threads[i])
    ensures Inv(With(s, i, Execute(s.threads[i])).(device := s.device + 1))
  {
    ExecuteKeeps(s.threads[i]);
    AdvanceThread(s, i, Execute(s.threads[i]));
  }

  lemma AdvanceThread(s: State, i: nat, t': Thread)
    requires Inv(s) && i < |s.threads| && ThreadInv(t')
    requires var t := s.threads[i];
      && t'.member == t.member && t'.disabled == t.disabled && t'.done == t.done + 1
      && t'.handleDump == t.handleDump && t'.deviceDump == t.deviceDump
      && t.server.Body? && t'.server.Receive?
    ensures Inv(With(s, i, t').(device := s.device + 1))
  {
    hide ThreadInv;
    SumUpdate(s.threads, Done, i, t');
    SumUpdate(s.threads, Members, i, t');
    SumUpdate(s.threads, Arrived(s.barrier.gen), i, t');
    SumUpdate(s.threads, Accounted, i, t');
    assert PhaseOk(s.threads[i], !s.ctl.Idle?, s.barrier.gen, s.device);
    assert !s.ctl.Idle? ==> s.barrier.gen != 1;
  }

  /** Moves between the two waits that do not touch the barrier, and the unlocking. */
  lemma CheckpointMoveKeeps(s: State, i: nat, k: nat)
    requires Inv(s) && i < |s.threads|
    requires var sv := s.threads[i].server; sv.Wait1? || sv.Dump? || sv.Wait2? || sv.Unlock?
    ensures Inv(ServerMove(s, i, k))
  {
    hide ReplyOk, ClientOk, Sum;
    var t := s.threads[i];
    match t.server
    case Wait1(_) => if s.barrier.gen != 0 { ReplaceThread(s, i, t.(server := Dump)); }
    case Dump => ReplaceThread(s, i, t.(server := Dumped, handleDump := t.done, deviceDump := s.device));
    case Wait2(_) => if s.barrier.gen != 1 { ReplaceThread(s, i, t.(server := Unlock)); }
    case Unlock =>
      ReplaceThread(s, i, t.(disabled := t.disabled && s.mode.Detach?,
                             server := if s.mode.LeaveRunning? then Receive(false, 0, false) else Stopped));
  }

  /** A full barrier: when as many have arrived as there are members, every member has. */
  lemma AllArrived(threads: seq<Thread>, gen: nat)
    requires Sum(threads, Arrived(gen)) == Sum(threads, Members)
    ensures forall i :: 0 <= i < |threads| && threads[i].member ==> HasArrived(gen, threads[i].server)
  {
    SumTight(threads, Arrived(gen), Members);
    forall i | 0 <= i < |threads| && threads[i].member
      ensures HasArrived(gen, threads[i].server)
    {
      assert Arrived(gen)(threads[i]) == Members(threads[i]);
    }
  }

  lemma NotMoreThanMembers(threads: seq<Thread>, gen: nat)
    ensures Sum(threads, Arrived(gen)) <= Sum(threads, Members)
  {
    SumLe(threads, Arrived(gen), Members);
  }

  /** Everybody waits at the first barrier and the generation turns: the world is stopped. */
  lemma WorldStops(s: State, threads: seq<Thread>, ctl: Controller)
    requires Inv(s) && !s.ctl.Idle? && s.barrier.gen == 0
    requires |threads| == |s.threads|
    requires forall i :: 0 <= i < |threads| ==>
      && ThreadInv(threads[i]) && threads[i].done == s.threads[i].done && threads[i].member == s.threads[i].member
      && threads[i].disabled == s.threads[i].disabled
      && (if threads[i].member then threads[i].server == Wait1(0) || threads[i].server.Dump? else threads[i].server == s.threads[i].server)
    requires ctl == CWait1(0) || ctl.DumpKernels?
    ensures Inv(s.(threads := threads, ctl := ctl, barrier := s.barrier.(count := 0, gen := 1)))
  {
    hide ThreadInv;
    SumPointwise(threads, Done, s.threads, Done);
    SumPointwise(threads, Members, s.threads, Members);
    SumZero(threads, Arrived(1));
  }

  /** Everybody waits at the second barrier: every dump was taken in between, so they all agree. */
  lemma WorldResumes(s: State, threads: seq<Thread>, ctl: Controller)
    requires Inv(s) && !s.ctl.Idle? && s.barrier.gen == 1 && (s.ctl.CWait2? || s.ctl.Arriving2?)
    requires |threads| == |s.threads|
    requires forall i :: 0 <= i < |threads| ==>
      && ThreadInv(threads[i]) && threads[i].done == s.threads[i].done && threads[i].member == s.threads[i].member
      && threads[i].disabled == s.threads[i].disabled
      && (if threads[i].member
          then (threads[i].server == Wait2(1) || threads[i].server.Unlock?)
               && threads[i].handleDump == threads[i].done && threads[i].deviceDump == s.device
          else threads[i].server == s.threads[i].server)
    requires ctl == CWait2(1) || ctl.Finishing?
    ensures Inv(s.(threads := threads, ctl := ctl, barrier := s.barrier.(count := 0, gen := 2)))
  {
    hide ThreadInv;
    SumPointwise(threads, Done, s.threads, Done);
    SumPointwise(threads, Members, s.threads, Members);
    SumPointwise(threads, Accounted, threads, Done);
    SumZero(threads, Arrived(2));
  }

  lemma ServerFirstWait(s: State, i: nat)
    requires Inv(s) && i < |s.threads| && s.threads[i].server.Entered? && !s.ctl.Idle?
    requires s.barrier.count + 1 < s.barrier.total
    ensures Inv(With(s, i, s.threads[i].(server := Wait1(0))).(barrier := Arrive(s.barrier)))
  {
    hide ThreadInv;
    var t' := s.threads[i].(server := Wait1(0));
    assert s.barrier.gen == 0 && t'.member;
    ParkedMoves(s.threads[i], Wait1(0));
    SumUpdate(s.threads, Arrived(0), i, t');
    SumUpdate(s.threads, Members, i, t');
    SumUpdate(s.threads, Done, i, t');
  }

  lemma ServerFirstRelease(s: State, i: nat)
    requires Inv(s) && i < |s.threads| && s.threads[i].server.Entered? && !s.ctl.Idle?
    requires s.barrier.count + 1 == s.barrier.total
    ensures Inv(With(s, i, s.threads[i].(server := Dump)).(barrier := Arrive(s.barrier)))
  {
    hide ThreadInv;
    var waiting := s.threads[i := s.threads[i].(server := Wait1(0))];
    var threads := s.threads[i := s.threads[i].(server := Dump)];
    assert s.barrier.gen == 0 && s.threads[i].member;
    SumUpdate(s.threads, Arrived(0), i, waiting[i]);
    SumUpdate(s.threads, Members, i, waiting[i]);
    NotMoreThanMembers(waiting, 0);
    AllArrived(waiting, 0);
    ParkedMoves(s.threads[i], Dump);
    forall j | 0 <= j < |threads| && j != i
      ensures threads[j] == s.threads[j] && (threads[j].member ==> threads[j].server == Wait1(0))
    {
      assert waiting[j] == s.threads[j];
      assert ThreadInv(s.threads[j]) && PhaseOk(s.threads[j], true, 0, s.device);
    }
    WorldStops(s, threads, s.ctl);
  }

  lemma ServerSecondWait(s: State, i: nat)
    requires Inv(s) && i < |s.threads| && s.threads[i].server.Dumped? && !s.ctl.Idle?
    requires s.barrier.count + 1 < s.barrier.total
    ensures Inv(With(s, i, s.threads[i].(server := Wait2(1))).(barrier := Arrive(s.barrier)))
  {
    hide ThreadInv;
    var t' := s.threads[i].(server := Wait2(1));
    assert s.barrier.gen == 1 && t'.member;
    ParkedMoves(s.threads[i], Wait2(1));
    SumUpdate(s.threads, Arrived(1), i, t');
    SumUpdate(s.threads, Members, i, t');
    SumUpdate(s.threads, Done, i, t');
  }

  lemma ServerSecondRelease(s: State, i: nat)
    requires Inv(s) && i < |s.threads| && s.threads[i].server.Dumped? && !s.ctl.Idle?
    requires s.barrier.count + 1 == s.barrier.total
    ensures Inv(With(s, i, s.threads[i].(server := Unlock)).(barrier := Arrive(s.barrier)))
  {
    hide ThreadInv;
    var waiting := s.threads[i := s.threads[i].(server := Wait2(1))];
    var threads := s.threads[i := s.threads[i].(server := Unlock)];
    assert s.barrier.gen == 1 && s.threads[i].member;
    SumUpdate(s.threads, Arrived(1), i, waiting[i]);
    SumUpdate(s.threads, Members, i, waiting[i]);
    NotMoreThanMembers(waiting, 1);
    AllArrived(waiting, 1);
    ParkedMoves(s.threads[i], Unlock);
    forall j | 0 <= j < |threads| && j != i
      ensures threads[j] == s.threads[j] && (threads[j].member ==> threads[j].server == Wait2(1))
    {
      assert waiting[j] == s.threads[j];
      assert ThreadInv(s.threads[j]) && PhaseOk(s.threads[j], true, 1, s.device);
    }
    WorldResumes(s, threads, s.ctl);
  }

  lemma ServerArrivesKeeps(s: State, i: nat, k: nat)
    requires Inv(s) && i < |s.threads| && (s.threads[i].server.Entered? || s.threads[i].server.Dumped?)
    ensures Inv(ServerMove(s, i, k))
  {
    var t := s.threads[i];
    assert !s.ctl.Idle? && s.barrier.gen == (if t.server.Entered? then 0 else 1);
    hide Inv, ThreadInv, Sum;
    if s.barrier.count + 1 == s.barrier.total {
      if t.server.Entered? { ServerFirstRelease(s, i); } else { ServerSecondRelease(s, i); }
    } else {
      if t.server.Entered? { ServerFirstWait(s, i); } else { ServerSecondWait(s, i); }
    }
  }

  lemma ServerMoveKeeps(s: State, i: nat, k: nat)
    requires Inv(s) && i < |s.threads|
    ensures Inv(ServerMove(s, i, k))
  {
    var t := s.threads[i];
    if CanExecute(t) { ExecuteMoveKeeps(s, i); }
    else if t.server.Entered? || t.server.Dumped? { ServerArrivesKeeps(s, i, k); }
    else if InCheckpoint(t.server) { CheckpointMoveKeeps(s, i, k); }
    else { ReceiveLoopKeeps(s, i, k); }
  }

  lemma LockingKeeps(s: State)
    requires Inv(s) && s.ctl.Locking?
    ensures Inv(ControllerMove(s))
  {
    hide ReplyOk, ClientOk, Sum;
    var j := s.ctl.next;
    if j < |s.threads| {
      ReplaceThread(s, j, s.threads[j].(disabled := s.threads[j].disabled || s.threads[j].member));
    }
  }

  lemma ControllerArrivesKeeps(s: State)
    requires Inv(s) && (s.ctl.Arriving1? || s.ctl.Arriving2?)
    ensures Inv(ControllerMove(s))
  {
    hide ThreadInv;
    var b := s.barrier;
    if b.count + 1 == b.total {
      AllArrived(s.threads, b.gen);
      if s.ctl.Arriving1? { WorldStops(s, s.threads, DumpKernels); }
      else { WorldResumes(s, s.threads, Finishing); }
    }
  }

  lemma ControllerLocalKeeps(s: State)
    requires Inv(s) && (s.ctl.Idle? || s.ctl.CWait1? || s.ctl.CWait2? || s.ctl.DumpKernels? || s.ctl.DumpMemory?)
    ensures Inv(ControllerMove(s))
  {
    hide ThreadsOk, Sum;
  }

  lemma FinishingKeeps(s: State)
    requires Inv(s) && s.ctl.Finishing?
    ensures Inv(ControllerMove(s))
  {
    hide ThreadInv, Sum;
    assert forall i :: 0 <= i < |s.threads| ==> s.threads[i] in s.threads;
  }

  lemma ControllerMoveKeeps(s: State)
    requires Inv(s)
    ensures Inv(ControllerMove(s))
  {
    if s.ctl.Locking? { LockingKeeps(s); }
    else if s.ctl.Arriving1? || s.ctl.Arriving2? { ControllerArrivesKeeps(s); }
    else if s.ctl.Finishing? { FinishingKeeps(s); }
    else { ControllerLocalKeeps(s); }
  }

  lemma MembershipIrrelevant(t: Thread, member: bool)
    requires ThreadInv(t)
    ensures ThreadInv(t.(member := member))
  {
  }

  lemma RequestKeeps(s: State, mode: Mode)
    requires Inv(s) && s.ctl.Idle?
    ensures Inv(Step(s, Request(mode)))
  {
    hide ThreadInv;
    var threads := Enlist(s.threads);
    SumPointwise(threads, Done, s.threads, Done);
    forall i | 0 <= i < |threads|
      ensures ThreadInv(threads[i]) && PhaseOk(threads[i], true, 0, s.device)
    {
      MembershipIrrelevant(s.threads[i], Live(s.threads[i]));
    }
    SumZero(threads, Arrived(0));
  }

  lemma SpawnKeeps(s: State)
    requires Inv(s) && s.ctl.Idle?
    ensures Inv(s.(threads := s.threads + [FRESH]))
  {
    FreshIsQuiet();
    hide ThreadInv;
    SumAppend(s.threads, FRESH, Done);
  }

  lemma FreshIsQuiet()
    ensures ThreadInv(FRESH)
  {
  }

  lemma StepKeeps(s: State, a: Action)
    requires Inv(s)
    ensures Inv(Step(s, a))
  {
    hide Inv, ThreadInv, ServerMove, ControllerMove, ClientStep, Enlist, Sum;
    match a
    case Spawn => if s.ctl.Idle? { SpawnKeeps(s); }
    case ClientMoves(i, m) => if i < |s.threads| { ClientMoveKeeps(s, i, m); }
    case ServerMoves(i, k) => if i < |s.threads| { ServerMoveKeeps(s, i, k); }
    case ServerPanics(i) =>
      if i < |s.threads| && Live(s.threads[i]) && !InCheckpoint(s.threads[i].server) { PanicKeeps(s, i); }
    case Request(mode) => if s.ctl.Idle? { RequestKeeps(s, mode); }
    case ControllerMoves => ControllerMoveKeeps(s);
  }

  /** The state after a run; the schedule is the action sequence. */
  ghost function Exec(actions: seq<Action>): State {
    if actions == [] then INIT else Step(Exec(actions[..|actions| - 1]), actions[|actions| - 1])
  }

  lemma {:induction false} RunKeeps(actions: seq<Action>)
    ensures Inv(Exec(actions))
  {
    if actions != [] {
      var before := actions[..|actions| - 1];
      RunKeeps(before);
      StepKeeps(Exec(before), actions[|actions| - 1]);
    }
  }

  /** From entering `checkpoint_thread` until it unlocks its client, a worker thread's client is
      outside any call and cannot enter one, every call it ever sent has been received and executed,
      and no reply is pending. Over all runs. */
  lemma QuietAtCheckpoint(actions: seq<Action>, i: nat)
    requires var s := Exec(actions); i < |s.threads| && InCheckpoint(s.threads[i].server)
    ensures var t := Exec(actions).threads[i];
            && t.disabled && !t.inUse && !InCall(t.client)
            && t.pub == t.got && t.done == |t.calls| && t.replies == 0
  {
    RunKeeps(actions);
    ParkedIsQuiet(Exec(actions).threads[i]);
  }

  /** While the controller dumps kernels and memory, every thread counted by the request sits
      between its two barrier waits, quiet, and no thread at all can execute a call. Over all runs. */
  lemma WorldIsStoppedDuringDump(actions: seq<Action>, i: nat)
    requires var s := Exec(actions); i < |s.threads| && (s.ctl.DumpKernels? || s.ctl.DumpMemory? || s.ctl.Arriving2?)
    ensures var t := Exec(actions).threads[i];
            && (t.member ==>
                  && (t.server == Wait1(0) || t.server.Dump? || t.server.Dumped? || t.server == Wait2(1))
                  && !InCall(t.client) && t.disabled && t.pub == t.got && t.done == |t.calls|)
            && (!t.member ==> !Live(t))
            && !CanExecute(t)
  {
    RunKeeps(actions);
    var t := Exec(actions).threads[i];
    if t.member { ParkedIsQuiet(t); }
  }

  /** A consistent cut: when a thread is about to unlock its client, or the controller is done, all
      handle dumps and the process dump have been taken, and all of them describe the same moment:
      the dumped device version counts exactly the calls the handle dumps account for. Over all runs. */
  lemma DumpsFormOneCut(actions: seq<Action>)
    requires var s := Exec(actions);
      s.ctl.Finishing? || exists t :: t in s.threads && t.server.Unlock?
    ensures var s := Exec(actions);
            && (!s.mode.Detach? ==> s.kernelDump == s.memoryDump == Sum(s.threads, Accounted))
            && (forall i :: 0 <= i < |s.threads| && s.threads[i].member ==>
                  s.threads[i].deviceDump == Sum(s.threads, Accounted))
  {
    RunKeeps(actions);
    var s := Exec(actions);
    if !s.ctl.Finishing? {
      var i :| 0 <= i < |s.threads| && s.threads[i].server.Unlock?;
      assert PhaseOk(s.threads[i], !s.ctl.Idle?, s.barrier.gen, s.device);
    }
  }

  // ---------------------------------------------------------------- the exit message

  /** The worker's second receive finds the ring empty. */
  ghost predicate SecondEmptyTest(before: State, after: State, i: nat) {
    && i < |before.threads| && i < |after.threads|
    && before.threads[i].server.Receive? && before.threads[i].server.second
    && after.threads[i].server.SawEmpty? && after.threads[i].server.second
  }

  ghost predicate ExitByte(before: State, after: State, i: nat) {
    i < |before.threads| && i < |after.threads| && before.threads[i].bye < after.threads[i].bye
  }

  /** Whether client `i` has published a byte of its exit message since its worker's last second
      empty test, read off the run. */
  ghost predicate ExitSince(actions: seq<Action>, i: nat) {
    actions != [] &&
      var before, after := Exec(actions[..|actions| - 1]), Exec(actions);
      !SecondEmptyTest(before, after, i) && (ExitByte(before, after, i) || ExitSince(actions[..|actions| - 1], i))
  }

  /** Past the second empty test: about to read the flag, or in the checkpoint. */
  predicate Tested(s: Server) { (s.SawEmpty? && s.second && s.cur == 0) || InCheckpoint(s) }

  /** What a step may do to a thread that ends up past the test: it is the test, and found no exit
      byte; or the thread was past the test already. */
  ghost predicate TestedBy(t: Thread, t': Thread) {
    Tested(t'.server) ==>
      if t.server.Receive? then t.server.second && t'.server.SawEmpty? && t'.bye == 0
      else Tested(t.server) && t.bye <= t'.bye
  }

  lemma ReceiveTests(t: Thread, k: nat)
    requires ThreadInv(t) && !InCheckpoint(t.server)
    ensures TestedBy(t, ServerStep(t, k))
  {
    if t.server.Receive? { EmptyTests(t, k); } else { OthersTest(t, k); }
  }

  lemma EmptyTests(t: Thread, k: nat)
    requires ThreadInv(t) && t.server.Receive?
    ensures TestedBy(t, ServerStep(t, k))
  {
    TotalGrows(t.calls, t.done);
    hide Total, ReplyOk;
  }

  lemma OthersTest(t: Thread, k: nat)
    requires !t.server.Receive? && !InCheckpoint(t.server)
    ensures TestedBy(t, ServerStep(t, k))
  {
    hide Total;
  }

  lemma ClientTests(t: Thread, a: ClientAction)
    ensures ClientStep(t, a).server == t.server && t.bye <= ClientStep(t, a).bye
  {
    hide Total;
  }

  /** The same for a step of the whole process. */
  ghost predicate StepTests(s: State, s': State, i: nat) {
    i < |s'.threads| && Tested(s'.threads[i].server) ==>
      && i < |s.threads|
      && if SecondEmptyTest(s, s', i) then s'.threads[i].bye == 0
         else Tested(s.threads[i].server) && s.threads[i].bye <= s'.threads[i].bye
  }

  lemma ServerMoveTests(s: State, j: nat, k: nat, i: nat)
    requires Inv(s) && j < |s.threads|
    ensures StepTests(s, ServerMove(s, j, k), i)
  {
    hide ThreadInv, ServerStep, PhaseOk, Sum, Arrive;
    var t := s.threads[j];
    if !CanExecute(t) && !InCheckpoint(t.server) { ReceiveTests(t, k); }
  }

  lemma OtherStepTests(s: State, a: Action, i: nat)
    requires !a.ServerMoves? && !a.ClientMoves?
    ensures StepTests(s, Step(s, a), i)
  {
    hide Sum;
  }

  lemma ClientMoveTests(s: State, j: nat, a: ClientAction, i: nat)
    requires Inv(s) && j < |s.threads|
    ensures StepTests(s, With(s, j, ClientStep(s.threads[j], a)), i)
  {
    hide ThreadInv, ClientStep, PhaseOk, Sum;
    ClientTests(s.threads[j], a);
  }

  lemma {:induction false} ExitBytesAreRecent(actions: seq<Action>, i: nat)
    requires var s := Exec(actions); i < |s.threads| && Tested(s.threads[i].server)
    ensures Exec(actions).threads[i].bye > 0 <==> ExitSince(actions, i)
  {
    hide Inv, Step, Tested, SecondEmptyTest, ExitByte;
    if actions != [] {
      var front, a := actions[..|actions| - 1], actions[|actions| - 1];
      var before, after := Exec(front), Exec(actions);
      RunKeeps(front);
      StepTestsAll(before, a, i);
      StepOutcome(before, after, i);
      if !SecondEmptyTest(before, after, i) { ExitBytesAreRecent(front, i); }
    }
  }

  lemma StepTestsAll(s: State, a: Action, i: nat)
    requires Inv(s)
    ensures StepTests(s, Step(s, a), i)
  {
    hide Inv, StepTests, ServerMove, ClientStep, Tested;
    match a
    case ServerMoves(j, k) => if j < |s.threads| { ServerMoveTests(s, j, k, i); } else { NothingTests(s, i); }
    case ClientMoves(j, m) => if j < |s.threads| { ClientMoveTests(s, j, m, i); } else { NothingTests(s, i); }
    case _ => OtherStepTests(s, a, i);
  }

  lemma NothingTests(s: State, i: nat)
    ensures StepTests(s, s, i)
  {
  }

  lemma StepOutcome(s: State, s': State, i: nat)
    requires StepTests(s, s', i) && i < |s'.threads| && Tested(s'.threads[i].server)
    ensures SecondEmptyTest(s, s', i) ==> s'.threads[i].bye == 0
    ensures !SecondEmptyTest(s, s', i) ==>
              && i < |s.threads| && Tested(s.threads[i].server)
              && (s'.threads[i].bye > 0 <==> s.threads[i].bye > 0 || ExitByte(s, s', i))
  {
  }

  /** Exactly: the request ring of a thread at its checkpoint is empty if and only if its client has
      not used its exit path since the worker's second empty test. */
  lemma RingIsEmptyExactly(actions: seq<Action>, i: nat)
    requires var s := Exec(actions); i < |s.threads| && InCheckpoint(s.threads[i].server)
    ensures Available(Exec(actions).threads[i]) == 0 <==> !ExitSince(actions, i)
  {
    RunKeeps(actions);
    ParkedIsQuiet(Exec(actions).threads[i]);
    ExitBytesAreRecent(actions, i);
  }

  // ---------------------------------------------------------------- runs that show why

  lemma ExecAppend(actions: seq<Action>, a: Action)
    ensures Exec(actions + [a]) == Step(Exec(actions), a)
  {
    assert (actions + [a])[..|actions|] == actions;
  }

  /** Extending a run of a process with a single worker thread, whose state becomes `t`. */
  ghost predicate Solo(actions: seq<Action>, t: Thread) {
    Exec(actions).threads == [t]
  }

  lemma SoloSpawn() returns (r: seq<Action>)
    ensures Solo(r, FRESH) && Exec(r).ctl.Idle?
  {
    r := [] + [Spawn];
    ExecAppend([], Spawn);
  }

  lemma SoloServer(actions: seq<Action>, t: Thread) returns (r: seq<Action>)
    requires Solo(actions, t) && !CanExecute(t) && !InCheckpoint(t.server)
    ensures Solo(r, ServerStep(t, 0)) && Exec(r).ctl == Exec(actions).ctl
  {
    r := actions + [ServerMoves(0, 0)];
    ExecAppend(actions, ServerMoves(0, 0));
    assert [t][0 := ServerStep(t, 0)] == [ServerStep(t, 0)];
  }

  lemma SoloClient(actions: seq<Action>, t: Thread, a: ClientAction) returns (r: seq<Action>)
    requires Solo(actions, t)
    ensures Solo(r, ClientStep(t, a)) && Exec(r).ctl == Exec(actions).ctl
  {
    r := actions + [ClientMoves(0, a)];
    ExecAppend(actions, ClientMoves(0, a));
    assert [t][0 := ClientStep(t, a)] == [ClientStep(t, a)];
  }

  lemma SoloRequest(actions: seq<Action>, t: Thread) returns (r: seq<Action>)
    requires Solo(actions, t) && Exec(actions).ctl.Idle? && Live(t)
    ensures Solo(r, t.(member := true, disabled := true))
  {
    var asked := actions + [Request(Kill)];
    ExecAppend(actions, Request(Kill));
    assert Enlist([t]) == [t.(member := true)];
    r := asked + [ControllerMoves];
    ExecAppend(asked, ControllerMoves);
  }

  /** A whole asynchronous call of the client, the worker not moving. */
  lemma SoloCall(actions: seq<Action>, t: Thread) returns (r: seq<Action>)
    requires Solo(actions, t) && t.client.Outside? && !t.inUse && !t.disabled && t.pub == Total(t.calls)
    ensures Solo(r, t.(calls := t.calls + [Call(0, false)], pub := t.pub + 4)) && Exec(r).ctl == Exec(actions).ctl
  {
    hide Solo, Exec, Step;
    var calls := t.calls + [Call(0, false)];
    assert calls[..|calls| - 1] == t.calls;
    r := SoloClient(actions, t, Enter(Call(0, false)));
    var inside := t.(inUse := true, client := Sending, calls := calls);
    r := SoloClient(r, inside, Publish(4));
    r := SoloClient(r, inside.(pub := t.pub + 4), FinishSend);
    r := SoloClient(r, inside.(pub := t.pub + 4, client := Leaving), Leave);
  }

  /** One locked receive proves nothing: the worker finds the ring empty, the client publishes a
      call and leaves, the flag then reads locked. Only the second receive sees the request. */
  lemma OneLockIsNotEnough() returns (actions: seq<Action>)
    ensures var s := Exec(actions);
            && |s.threads| == 1
            && s.threads[0].server == Receive(true, 0, false)     // the first receive returned Locked
            && s.threads[0].got < s.threads[0].pub                // and a request is in the ring
  {
    hide Exec, ClientStep;
    var t := FRESH.(server := SawEmpty(false, 0));
    actions := SoloSpawn();
    actions := SoloServer(actions, FRESH);
    assert [] + [Call(0, false)] == [Call(0, false)];
    actions := SoloCall(actions, t);
    actions := SoloRequest(actions, t.(calls := [Call(0, false)], pub := 4));
    actions := SoloServer(actions, t.(calls := [Call(0, false)], pub := 4, member := true, disabled := true));
  }

  /** The exit path writes its message without taking the flag, so it can land in the ring of a
      worker already at its checkpoint. */
  lemma ExitMessageBreaksQuiet() returns (actions: seq<Action>)
    ensures var s := Exec(actions);
            && |s.threads| == 1
            && InCheckpoint(s.threads[0].server)
            && Available(s.threads[0]) > 0
  {
    hide Exec;
    var t := FRESH.(member := true, disabled := true);
    actions := SoloSpawn();
    actions := SoloRequest(actions, FRESH);
    actions := SoloServer(actions, t);
    actions := SoloServer(actions, t.(server := SawEmpty(false, 0)));
    actions := SoloServer(actions, t.(server := Receive(true, 0, false)));
    actions := SoloServer(actions, t.(server := SawEmpty(true, 0)));
    actions := SoloClient(actions, t.(server := Entered), Exit);
    actions := SoloClient(actions, t.(server := Entered, client := Exiting), Publish(4));
  }

  /** The message ends the worker thread when it is received outside a checkpoint. */
  lemma ExitMessageEndsThread() returns (actions: seq<Action>)
    ensures var s := Exec(actions); |s.threads| == 1 && s.threads[0].server.Stopped? && s.threads[0].done == 0
  {
    hide Exec;
    actions := SoloSpawn();
    actions := SoloClient(actions, FRESH, Exit);
    var t := FRESH.(client := Exiting);
    actions := SoloClient(actions, t, Publish(4));
    t := t.(bye := 4);
    actions := SoloServer(actions, t);
    actions := SoloServer(actions, t.(got := 1, server := Receive(false, 1, true)));
    actions := SoloServer(actions, t.(got := 2, server := Receive(false, 2, true)));
    actions := SoloServer(actions, t.(got := 3, server := Receive(false, 3, true)));
  }
}
