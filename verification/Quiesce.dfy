/** One client thread and the worker thread serving it: the flag word, the request ring seen as byte
    counts (RingProtocol justifies that view), and the worker's receive loop with its double receive. */
module Quiesce {

  /** A remote call: a 4-byte procedure id followed by `body` bytes; `sync` calls wait for a reply. */
  datatype Call = Call(body: nat, sync: bool)

  const HEADER: nat := 4

  function Total(calls: seq<Call>): nat {
    if calls == [] then 0 else Total(calls[..|calls| - 1]) + HEADER + calls[|calls| - 1].body
  }

  /** Exiting: the client's exit path, which sends procedure id -1 and takes no flag. */
  datatype Client = Outside | Sending | Awaiting | Leaving | Exiting

  datatype Server =
    | Receive(second: bool, cur: nat, took: bool)  // in get_bytes for a procedure id; took: this
                                                   // try_get_bytes has delivered something
    | SawEmpty(second: bool, cur: nat)             // try_get_bytes delivered nothing; flag not yet read
    | Body(rem: nat)                               // in a dispatched stub, rem bytes still to receive
    | BodyEmpty(rem: nat)                          // found the ring empty there; flag not yet read
    | Entered                                      // in checkpoint_thread, before the first wait
    | Wait1(gen: nat) | Dump | Dumped | Wait2(gen: nat) | Unlock
    | Stopped | Panicked

  datatype Thread = Thread(
    inUse: bool, disabled: bool,         // the two bits of the flag word
    client: Client, calls: seq<Call>,    // calls: every call the client has begun
    pub: nat, bye: nat,                  // bytes published: of calls, and of the exit message behind them
    got: nat,                            // request bytes consumed
    replies: nat,                        // replies in the reply ring
    server: Server, done: nat,           // done: calls executed
    member: bool,                        // counted by the current checkpoint request
    handleDump: nat, deviceDump: nat)    // what the thread's last dump recorded

  const FRESH := Thread(false, false, Outside, [], 0, 0, 0, 0, Receive(false, 0, false), 0, false, 0, 0)

  datatype ClientAction = Enter(call: Call) | Publish(k: nat) | FinishSend | TakeReply | Leave | Exit

  /** `set_client_flag_blocking`, the generated stub, `clear_client_flag`, and the exit path. */
  ghost function ClientStep(t: Thread, a: ClientAction): Thread {
    match a
    case Enter(call) =>
      if t.client.Outside? && !t.inUse && !t.disabled
      then t.(inUse := true, client := Sending, calls := t.calls + [call]) else t
    case Publish(k) =>
      if t.client.Sending? && t.pub + k <= Total(t.calls) then t.(pub := t.pub + k)
      else if t.client.Exiting? && t.bye + k <= HEADER then t.(bye := t.bye + k) else t
    case FinishSend =>
      if t.client.Sending? && t.calls != [] && t.pub == Total(t.calls)
      then t.(client := if t.calls[|t.calls| - 1].sync then Awaiting else Leaving) else t
    case TakeReply =>
      if t.client.Awaiting? && t.replies > 0 then t.(client := Leaving, replies := t.replies - 1) else t
    case Leave =>
      if t.client.Leaving? then t.(inUse := false, client := Outside) else t
    case Exit => if t.client.Outside? then t.(client := Exiting) else t
  }

  predicate InCall(c: Client) { c.Sending? || c.Awaiting? || c.Leaving? }

  /** Bytes in the request ring. */
  function Available(t: Thread): nat { if t.pub + t.bye <= t.got then 0 else t.pub + t.bye - t.got }

  ghost predicate ReadsLocked(t: Thread) { t.disabled && !t.inUse }

  /** Bytes one contiguous read delivers: at least one, at most what is there and what is wanted. */
  ghost function Chunk(k: nat, available: nat, wanted: nat): (n: nat)
    requires available > 0 && wanted > 0
    ensures 0 < n <= available && n <= wanted
  {
    if 0 < k <= available && k <= wanted then k else 1
  }

  /** The worker loop up to `checkpoint_thread`: `receive_request`, the second `receive_request`
      after a lock was seen, and the receiving half of a dispatched stub. */
  ghost function ServerStep(t: Thread, k: nat): Thread {
    match t.server
    case Receive(second, cur, took) =>
      if Available(t) == 0 || HEADER <= cur then
        t.(server := if took then Receive(second, cur, false) else SawEmpty(second, cur))
      else
        var n := Chunk(k, Available(t), HEADER - cur);
        var t' := t.(got := t.got + n);
        if cur + n < HEADER then t'.(server := Receive(second, cur + n, true))
        else if second then t'.(server := Panicked)                         // "remaining async requests"
        else if |t.calls| <= t.done then t'.(server := Stopped)             // procedure id -1
        else t'.(server := Body(t.calls[t.done].body))
    case SawEmpty(second, cur) =>
      if !ReadsLocked(t) then t.(server := Receive(second, cur, false))
      else if cur != 0 then t.(server := Panicked)                          // assert_eq!(cur_recv, 0)
      else if second then t.(server := Entered)
      else t.(server := Receive(true, 0, false))
    case Body(rem) =>
      if rem == 0 then t                                                    // see Execute
      else if Available(t) == 0 then t.(server := BodyEmpty(rem))
      else
        var n := Chunk(k, Available(t), rem);
        t.(got := t.got + n, server := Body(rem - n))
    case BodyEmpty(rem) => t.(server := if ReadsLocked(t) then Panicked else Body(rem))   // unwrap of Locked, or the same assert
    case _ => t
  }

  ghost predicate CanExecute(t: Thread) { t.server == Body(0) && t.done < |t.calls| }

  /** The stub calls the driver and, for a call the client waits on, sends the reply. */
  ghost function Execute(t: Thread): Thread
    requires CanExecute(t)
  {
    t.(done := t.done + 1, server := Receive(false, 0, false),
       replies := if t.calls[t.done].sync then t.replies + 1 else t.replies)
  }

  /** Between entering `checkpoint_thread` and unlocking the client. */
  predicate InCheckpoint(s: Server) {
    s.Entered? || s.Wait1? || s.Dump? || s.Dumped? || s.Wait2? || s.Unlock?
  }

  ghost predicate ClientOk(client: Client, inUse: bool, calls: seq<Call>, pub: nat, bye: nat) {
    && (InCall(client) <==> inUse)
    && (InCall(client) ==> calls != [])
    && pub <= Total(calls)
    && (!client.Sending? ==> pub == Total(calls))
    && bye <= HEADER && (bye > 0 ==> client.Exiting?)
    && (client.Awaiting? ==> calls[|calls| - 1].sync)
  }

  ghost predicate ServerOk(server: Server, locked: bool, calls: seq<Call>, pub: nat, bye: nat, got: nat, done: nat) {
    && got <= pub + bye && done <= |calls|
    && match server
       case Receive(second, cur, _) =>
         cur < HEADER && got == Total(calls[..done]) + cur && (second ==> locked)
       case SawEmpty(second, cur) =>
         cur < HEADER && got == Total(calls[..done]) + cur && (second ==> locked && pub <= got)
       case Body(rem) => done < |calls| && got + rem == Total(calls[..done + 1])
       case BodyEmpty(rem) => rem > 0 && done < |calls| && got + rem == Total(calls[..done + 1])
       case Stopped => true
       case Panicked => true
       case _ => locked && pub == got && got == Total(calls[..done])
  }

  /** A reply is in the ring exactly between the execution of the sync call the client is in and
      the client taking it; every earlier sync call has been executed. */
  ghost predicate ReplyOk(client: Client, calls: seq<Call>, done: nat, replies: nat) {
    var inCall := client.Sending? || client.Awaiting?;
    && (forall j :: done <= j < |calls| - (if inCall then 1 else 0) ==> !calls[j].sync)
    && replies == (if inCall && calls != [] && calls[|calls| - 1].sync && done == |calls| then 1 else 0)
  }

  ghost predicate ThreadInv(t: Thread) {
    && ClientOk(t.client, t.inUse, t.calls, t.pub, t.bye)
    && ServerOk(t.server, ReadsLocked(t), t.calls, t.pub, t.bye, t.got, t.done)
    && ReplyOk(t.client, t.calls, t.done, t.replies)
  }

  lemma {:induction false} TotalGrows(calls: seq<Call>, k: nat)
    requires k <= |calls|
    ensures if k == |calls| then calls[..k] == calls else Total(calls[..k]) < Total(calls)
    ensures k < |calls| ==> Total(calls[..k + 1]) == Total(calls[..k]) + HEADER + calls[k].body
  {
    if k < |calls| {
      assert calls[..k + 1][..k] == calls[..k];
      if k == |calls| - 1 {
        assert calls[..k + 1] == calls;
      } else {
        var front := calls[..|calls| - 1];
        assert front[..k] == calls[..k] && front[..k + 1] == calls[..k + 1];
        TotalGrows(front, k);
      }
    } else {
      assert calls[..k] == calls;
    }
  }

  /** A parked thread is quiet: the client is outside any call and cannot enter one, every call ever
      begun has been taken and executed, no reply is pending, and all the request ring can hold is
      the exit message. */
  lemma ParkedIsQuiet(t: Thread)
    requires ThreadInv(t) && InCheckpoint(t.server)
    ensures ReadsLocked(t) && !InCall(t.client)
    ensures t.pub == t.got == Total(t.calls) && Available(t) == t.bye
    ensures t.done == |t.calls| && t.replies == 0
  {
    TotalGrows(t.calls, t.done);
  }

  /** Inside the checkpoint a thread may move freely: everything stays put around it. */
  lemma ParkedMoves(t: Thread, server: Server)
    requires ThreadInv(t) && InCheckpoint(t.server) && InCheckpoint(server)
    ensures ThreadInv(t.(server := server))
  {
  }

  lemma ClientKeeps(t: Thread, a: ClientAction)
    requires ThreadInv(t)
    ensures ThreadInv(ClientStep(t, a))
  {
    if a.Enter? {
      var calls := t.calls + [a.call];
      assert calls[..|calls| - 1] == t.calls;
      assert calls[..t.done] == t.calls[..t.done];
      if t.done < |t.calls| { assert calls[..t.done + 1] == t.calls[..t.done + 1]; }
    }
  }

  lemma ReceiveKeeps(t: Thread, k: nat)
    requires ThreadInv(t) && t.server.Receive?
    ensures ThreadInv(ServerStep(t, k))
  {
    hide ReplyOk, ClientOk, Total;
    TotalGrows(t.calls, t.done);
    var t' := ServerStep(t, k);
    assert ServerOk(t'.server, ReadsLocked(t), t.calls, t.pub, t.bye, t'.got, t.done);
  }

  lemma SawEmptyKeeps(t: Thread, k: nat)
    requires ThreadInv(t) && t.server.SawEmpty?
    ensures ThreadInv(ServerStep(t, k))
  {
    TotalGrows(t.calls, t.done);
    hide Total, ReplyOk;
  }

  lemma BodyKeeps(t: Thread, k: nat)
    requires ThreadInv(t) && (t.server.Body? || t.server.BodyEmpty?)
    ensures ThreadInv(ServerStep(t, k))
  {
  }

  lemma ServerKeeps(t: Thread, k: nat)
    requires ThreadInv(t)
    ensures ThreadInv(ServerStep(t, k))
  {
    if t.server.Receive? { ReceiveKeeps(t, k); }
    else if t.server.SawEmpty? { SawEmptyKeeps(t, k); }
    else if t.server.Body? || t.server.BodyEmpty? { BodyKeeps(t, k); }
  }

  lemma ExecuteKeeps(t: Thread)
    requires ThreadInv(t) && CanExecute(t)
    ensures ThreadInv(Execute(t))
  {
    TotalGrows(t.calls, t.done);
  }
}
