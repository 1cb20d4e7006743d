/** The RDMA ring: the sender fills a ring of its own and mirrors it into the receiver's memory with
    ordered one-sided writes and a compare-and-swap on the remote tail, and knows the remote head
    only from its last read. The network card runs the posted requests later, one at a time, and
    reads the sender's memory when it does. */
module RdmaRing {
  import opened Bytes
  import opened RingIndex

  datatype Request = Write(off: nat, len: nat) | Cas(expected: nat, swap: nat) | ReadHead

  /** Where the sender is: between calls of `flush_out`, at its loop test, or waiting for a read. */
  datatype Sender = Ready | Testing | Waiting

  datatype State = State(
    lbuf: seq<Byte>, lhead: nat, ltail: nat, lastTail: nat,   // the sender's memory and its `last_tail`
    rbuf: seq<Byte>, rhead: nat, rtail: nat,                  // the receiver's memory
    queue: seq<Request>, sender: Sender,
    published: seq<Byte>,                                     // everything put into the local ring
    received: seq<Byte>,                                      // everything the receiver has taken
    at: Marks)                                                // stream positions, read by no step

  /** How much of the stream the local head, the last flush, the executed writes and the remote tail
      stand for; the local tail stands for all of `published`, the remote head for `received`. */
  datatype Marks = Marks(lhead: nat, last: nat, written: nat, rtail: nat)

  datatype Action = Put(bytes: seq<Byte>) | Flush | Test | Card | Take(max: nat)

  ghost function Init(cap: nat): State
    requires cap > 0
  {
    State(seq(cap, _ => 0), 0, 0, 0, seq(cap, _ => 0), 0, 0, [], Ready, [], [], Marks(0, 0, 0, 0))
  }

  ghost predicate InBounds(s: State) {
    && 0 < |s.lbuf| == |s.rbuf|
    && s.lhead < |s.lbuf| && s.ltail < |s.lbuf| && s.lastTail < |s.lbuf|
    && s.rhead < |s.lbuf| && s.rtail < |s.lbuf|
  }

  /** One piece of `put_bytes` into the local ring; a full ring must be flushed first. */
  ghost function PutStep(s: State, bytes: seq<Byte>): State
    requires InBounds(s)
  {
    var cap := |s.lbuf|;
    if !s.sender.Ready? || IsFull(cap, s.lhead, s.ltail) then s
    else
      var n := WriteLen(cap, s.lhead, s.ltail, |bytes|);
      WriteLenFits(cap, s.lhead, s.ltail, |bytes|);
      s.(lbuf := Splice(s.lbuf, s.ltail, bytes[..n]), ltail := Advance(cap, s.ltail, n), published := s.published + bytes[..n])
  }

  /** The writes `flush_out` posts for what was filled since the last flush, one or two of them. */
  function Writes(cap: nat, last: nat, tail: nat): seq<Request>
    requires last < cap && tail < cap
  {
    if last < tail then [Write(last, tail - last)]
    else if tail < last then [Write(last, cap - last), Write(0, tail)]
    else []
  }

  ghost function FlushStep(s: State): State
    requires InBounds(s)
  {
    if !s.sender.Ready? then s
    else
      s.(queue := s.queue + Writes(|s.lbuf|, s.lastTail, s.ltail) + [Cas(s.lastTail, s.ltail)],
         lastTail := s.ltail, sender := Testing, at := s.at.(last := |s.published|))
  }

  ghost function TestStep(s: State): State
    requires InBounds(s)
  {
    if !s.sender.Testing? then s
    else if IsFull(|s.lbuf|, s.lhead, s.ltail) then s.(queue := s.queue + [ReadHead], sender := Waiting)
    else s.(sender := Ready)
  }

  /** The card runs the oldest posted request. A CAS that does not match does nothing. */
  ghost function CardStep(s: State): State
    requires InBounds(s)
  {
    if s.queue == [] then s
    else
      var t := s.(queue := s.queue[1..]);
      match s.queue[0]
      case Write(off, len) =>
        if off + len > |s.lbuf| then t
        else t.(rbuf := Splice(s.rbuf, off, s.lbuf[off..off + len]), at := s.at.(written := s.at.written + len))
      case Cas(expected, swap) => if s.rtail == expected then t.(rtail := swap, at := s.at.(rtail := s.at.written)) else t
      case ReadHead =>
        t.(lhead := s.rhead, sender := if s.sender.Waiting? then Testing else s.sender, at := s.at.(lhead := |s.received|))
  }

  /** The receiver takes one contiguous slice from its own memory. */
  ghost function TakeStep(s: State, max: nat): State
    requires InBounds(s)
  {
    var n := ReadLen(|s.rbuf|, s.rhead, s.rtail, max);
    s.(received := s.received + s.rbuf[s.rhead..s.rhead + n], rhead := Advance(|s.rbuf|, s.rhead, n))
  }

  ghost function Step(s: State, a: Action): State {
    if !InBounds(s) then s else match a
      case Put(bytes) => PutStep(s, bytes)
      case Flush => FlushStep(s)
      case Test => TestStep(s)
      case Card => CardStep(s)
      case Take(max) => TakeStep(s, max)
  }

  // ---------------------------------------------------------------- stream positions

  /** The ring index of the n-th byte of the stream. */
  ghost function Idx(n: nat, cap: nat): (i: nat)
    requires cap > 0
    ensures i < cap
  {
    if n < cap then n else Idx(n - cap, cap)
  }

  lemma {:induction false} IdxNear(n: nat, k: nat, cap: nat)
    requires cap > 0 && k <= cap
    ensures Idx(n + k, cap) == if Idx(n, cap) + k < cap then Idx(n, cap) + k else Idx(n, cap) + k - cap
  {
    if n >= cap { IdxNear(n - cap, k, cap); }
  }

  /** Positions less than a lap apart have different indices. */
  lemma IdxApart(i: nat, j: nat, cap: nat)
    requires cap > 0 && i < j < i + cap
    ensures Idx(i, cap) != Idx(j, cap)
  {
    IdxNear(i, j - i, cap);
  }

  lemma UsedIs(h: nat, t: nat, cap: nat)
    requires cap > 0 && h <= t < h + cap
    ensures Used(cap, Idx(h, cap), Idx(t, cap)) == t - h
  {
    IdxNear(h, t - h, cap);
  }

  /** `buf` holds the stream from position `from` up to `to`. */
  ghost predicate Holds(buf: seq<Byte>, stream: seq<Byte>, from: nat, to: nat) {
    && |buf| > 0 && to <= |stream|
    && forall i :: from <= i < to ==> buf[Idx(i, |buf|)] == stream[i]
  }

  /** Writing the piece for positions `at ..` keeps every position within a lap of it. */
  lemma SpliceHolds(buf: seq<Byte>, stream: seq<Byte>, from: nat, at: nat, piece: seq<Byte>)
    requires Holds(buf, stream, from, at) && from <= at && at + |piece| <= |stream| && at + |piece| <= from + |buf|
    requires Idx(at, |buf|) + |piece| <= |buf| && piece == stream[at..at + |piece|]
    ensures Holds(Splice(buf, Idx(at, |buf|), piece), stream, from, at + |piece|)
  {
    var cap := |buf|;
    var out := Splice(buf, Idx(at, cap), piece);
    forall i | from <= i < at + |piece|
      ensures out[Idx(i, cap)] == stream[i]
    {
      if i < at { IdxSkips(i, at, |piece|, cap); } else { IdxNear(at, i - at, cap); }
    }
  }

  /** An earlier position is not among the indices a later piece covers. */
  lemma IdxSkips(i: nat, at: nat, len: nat, cap: nat)
    requires cap > 0 && i < at && at + len <= i + cap && Idx(at, cap) + len <= cap
    ensures !(Idx(at, cap) <= Idx(i, cap) < Idx(at, cap) + len)
  {
    IdxNear(i, at - i, cap);
  }

  lemma PieceIs(buf: seq<Byte>, stream: seq<Byte>, from: nat, to: nat, at: nat, len: nat)
    requires Holds(buf, stream, from, to) && from <= at && at + len <= to && Idx(at, |buf|) + len <= |buf|
    ensures to <= |stream| && buf[Idx(at, |buf|)..Idx(at, |buf|) + len] == stream[at..at + len]
  {
    var piece := buf[Idx(at, |buf|)..Idx(at, |buf|) + len];
    forall k | 0 <= k < |piece|
      ensures piece[k] == stream[at + k]
    {
      IdxNear(at, k, |buf|);
    }
  }

  lemma HoldsPart(buf: seq<Byte>, stream: seq<Byte>, from: nat, to: nat, from': nat, to': nat)
    requires Holds(buf, stream, from, to) && from <= from' && to' <= to
    ensures Holds(buf, stream, from', to')
  {
  }

  lemma StoredIs(buf: seq<Byte>, stream: seq<Byte>, h: nat, t: nat)
    requires Holds(buf, stream, h, t) && h <= t < h + |buf|
    ensures Stored(buf, Idx(h, |buf|), Idx(t, |buf|)) == stream[h..t]
  {
    hide Holds, Idx, Stored;
    var cap := |buf|;
    var i, j := Idx(h, cap), Idx(t, cap);
    IdxNear(h, t - h, cap);
    StoredParts(buf, i, j);
    if i <= j {
      PieceIs(buf, stream, h, t, h, t - h);
    } else {
      var lap := h + (cap - i);
      IdxNear(h, cap - i, cap);
      PieceIs(buf, stream, h, t, h, cap - i);
      PieceIs(buf, stream, h, t, lap, j);
      Joined(stream, h, lap, t);
    }
  }

  lemma StoredParts(buf: seq<Byte>, i: nat, j: nat)
    requires i < |buf| && j < |buf|
    ensures Stored(buf, i, j) == if i <= j then buf[i..i + (j - i)] else buf[i..i + (|buf| - i)] + buf[0..0 + j]
  {
  }

  lemma Joined(stream: seq<Byte>, a: nat, b: nat, c: nat)
    requires a <= b <= c <= |stream|
    ensures stream[a..b] + stream[b..c] == stream[a..c]
  {
  }

  // ---------------------------------------------------------------- the invariant

  /** The posted requests lead from what the card has done to the last flush: each write continues
      where the one before ended, and each CAS expects what the one before left. */
  ghost predicate Leads(queue: seq<Request>, written: nat, rtail: nat, last: nat, cap: nat)
    requires cap > 0
  {
    if queue == [] then written == last == rtail
    else match queue[0]
      case Write(off, len) =>
        off == Idx(written, cap) && off + len <= cap && written + len <= last && Leads(queue[1..], written + len, rtail, last, cap)
      case Cas(expected, swap) =>
        expected == Idx(rtail, cap) && swap == Idx(written, cap) && Leads(queue[1..], written, written, last, cap)
      case ReadHead => Leads(queue[1..], written, rtail, last, cap)
  }

  lemma {:induction false} LeadsOn(queue: seq<Request>, written: nat, rtail: nat, last: nat, cap: nat, more: seq<Request>, last': nat)
    requires cap > 0 && last <= last' && Leads(queue, written, rtail, last, cap) && Leads(more, last, last, last', cap)
    ensures Leads(queue + more, written, rtail, last', cap)
  {
    if queue == [] {
      assert queue + more == more;
    } else {
      assert (queue + more)[1..] == queue[1..] + more;
      match queue[0]
      case Write(off, len) => LeadsOn(queue[1..], written + len, rtail, last, cap, more, last');
      case Cas(expected, swap) => LeadsOn(queue[1..], written, written, last, cap, more, last');
      case ReadHead => LeadsOn(queue[1..], written, rtail, last, cap, more, last');
    }
  }

  /** What one flush posts leads from the previous flush to this one, in every wrap-around case. */
  lemma FlushLeads(last: nat, t: nat, cap: nat)
    requires cap > 0 && last <= t < last + cap
    ensures Leads(Writes(cap, Idx(last, cap), Idx(t, cap)) + [Cas(Idx(last, cap), Idx(t, cap))], last, last, t, cap)
  {
    var a, b := Idx(last, cap), Idx(t, cap);
    IdxNear(last, t - last, cap);
    var cas := [Cas(a, b)];
    assert Leads([], t, t, t, cap);
    assert Leads(cas, t, last, t, cap) by { assert cas[1..] == []; }
    if a < b {
      var posted := [Write(a, b - a)] + cas;
      assert Writes(cap, a, b) + cas == posted && posted[1..] == cas;
    } else if b < a {
      var second := [Write(0, b)] + cas;
      var posted := [Write(a, cap - a)] + second;
      assert Writes(cap, a, b) + cas == posted && posted[1..] == second && second[1..] == cas;
      IdxNear(last, cap - a, cap);
      assert Leads(second, last + (cap - a), last, t, cap);
    } else {
      assert Writes(cap, a, b) + cas == cas;
    }
  }

  ghost predicate Ordered(at: Marks, received: nat, published: nat, cap: nat) {
    at.lhead <= received <= at.rtail <= at.written <= at.last <= published < at.lhead + cap
  }

  ghost predicate Indices(s: State)
    requires InBounds(s)
  {
    var cap := |s.lbuf|;
    && s.lhead == Idx(s.at.lhead, cap) && s.ltail == Idx(|s.published|, cap) && s.lastTail == Idx(s.at.last, cap)
    && s.rhead == Idx(|s.received|, cap) && s.rtail == Idx(s.at.rtail, cap)
  }

  ghost predicate Inv(s: State) {
    && InBounds(s) && Indices(s)
    && Ordered(s.at, |s.received|, |s.published|, |s.lbuf|)
    && Leads(s.queue, s.at.written, s.at.rtail, s.at.last, |s.lbuf|)
    && Holds(s.lbuf, s.published, s.at.lhead, |s.published|)
    && Holds(s.rbuf, s.published, |s.received|, s.at.written)
    && s.received <= s.published
  }

  lemma HoldsMore(buf: seq<Byte>, stream: seq<Byte>, from: nat, to: nat, more: seq<Byte>)
    requires Holds(buf, stream, from, to)
    ensures Holds(buf, stream + more, from, to)
  {
  }

  lemma PutKeeps(s: State, bytes: seq<Byte>)
    requires Inv(s)
    ensures Inv(PutStep(s, bytes))
  {
    hide Leads, Holds, WriteLen, Idx, Splice, Used;
    var cap, t := |s.lbuf|, |s.published|;
    if s.sender.Ready? && !IsFull(cap, s.lhead, s.ltail) {
      var n := WriteLen(cap, s.lhead, s.ltail, |bytes|);
      WriteLenFits(cap, s.lhead, s.ltail, |bytes|);
      WriteLenMax(cap, s.lhead, s.ltail, |bytes|);
      UsedIs(s.at.lhead, t, cap);
      IdxNear(t, n, cap);
      HoldsMore(s.lbuf, s.published, s.at.lhead, t, bytes[..n]);
      HoldsMore(s.rbuf, s.published, |s.received|, s.at.written, bytes[..n]);
      SpliceHolds(s.lbuf, s.published + bytes[..n], s.at.lhead, t, bytes[..n]);
    }
  }

  lemma WriteLenMax(cap: nat, head: nat, tail: nat, max: nat)
    requires head < cap && tail < cap
    ensures WriteLen(cap, head, tail, max) <= max
  {
  }

  lemma FlushKeeps(s: State)
    requires Inv(s)
    ensures Inv(FlushStep(s))
  {
    hide Leads, Holds, Writes;
    if s.sender.Ready? {
      var cap := |s.lbuf|;
      var more := Writes(cap, s.lastTail, s.ltail) + [Cas(s.lastTail, s.ltail)];
      FlushLeads(s.at.last, |s.published|, cap);
      LeadsOn(s.queue, s.at.written, s.at.rtail, s.at.last, cap, more, |s.published|);
      assert s.queue + Writes(cap, s.lastTail, s.ltail) + [Cas(s.lastTail, s.ltail)] == s.queue + more;
    }
  }

  lemma TestKeeps(s: State)
    requires Inv(s)
    ensures Inv(TestStep(s))
  {
    ReadLeads(s.at.last, |s.lbuf|);
    hide Leads, Holds;
    LeadsOn(s.queue, s.at.written, s.at.rtail, s.at.last, |s.lbuf|, [ReadHead], s.at.last);
  }

  lemma ReadLeads(last: nat, cap: nat)
    requires cap > 0
    ensures Leads([ReadHead], last, last, last, cap)
  {
    assert [ReadHead][1..] == [];
    assert Leads([], last, last, last, cap);
  }

  /** The card copies what was published, although it reads the sender's memory late, and touches
      nothing the receiver has not taken yet. */
  lemma CardWriteKeeps(s: State)
    requires Inv(s) && s.queue != [] && s.queue[0].Write?
    ensures Inv(CardStep(s))
  {
    hide Leads, Holds, Idx, Splice;
    var off, len, cap, w := s.queue[0].off, s.queue[0].len, |s.lbuf|, s.at.written;
    LeadsWrite(s.queue, w, s.at.rtail, s.at.last, cap);
    PieceIs(s.lbuf, s.published, s.at.lhead, |s.published|, w, len);
    SpliceHolds(s.rbuf, s.published, |s.received|, w, s.lbuf[off..off + len]);
  }

  lemma LeadsWrite(queue: seq<Request>, written: nat, rtail: nat, last: nat, cap: nat)
    requires cap > 0 && queue != [] && queue[0].Write? && Leads(queue, written, rtail, last, cap)
    ensures queue[0].off == Idx(written, cap) && queue[0].off + queue[0].len <= cap && written + queue[0].len <= last
    ensures Leads(queue[1..], written + queue[0].len, rtail, last, cap)
  {
  }

  lemma CardCasKeeps(s: State)
    requires Inv(s) && s.queue != [] && s.queue[0].Cas?
    ensures Inv(CardStep(s)) && s.queue[0].expected == s.rtail
  {
    assert Leads(s.queue[1..], s.at.written, s.at.written, s.at.last, |s.lbuf|);
    hide Leads, Holds;
  }

  lemma CardReadKeeps(s: State)
    requires Inv(s) && s.queue != [] && s.queue[0].ReadHead?
    ensures Inv(CardStep(s))
  {
    assert Leads(s.queue[1..], s.at.written, s.at.rtail, s.at.last, |s.lbuf|);
    hide Leads;
  }

  lemma TakeKeeps(s: State, max: nat)
    requires Inv(s)
    ensures Inv(TakeStep(s, max))
  {
    hide Leads, Holds, Idx, ReadLen, Used;
    var cap, h := |s.rbuf|, |s.received|;
    var n := ReadLen(cap, s.rhead, s.rtail, max);
    ReadLenFits(cap, s.rhead, s.rtail, max);
    UsedIs(h, s.at.rtail, cap);
    IdxNear(h, n, cap);
    PieceIs(s.rbuf, s.published, h, s.at.written, h, n);
    HoldsPart(s.rbuf, s.published, h, s.at.written, h + n, s.at.written);
    Longer(s.received, s.published, n);
  }

  lemma ReadLenFits(cap: nat, head: nat, tail: nat, max: nat)
    requires head < cap && tail < cap
    ensures ReadLen(cap, head, tail, max) <= Used(cap, head, tail) && head + ReadLen(cap, head, tail, max) <= cap
  {
  }

  lemma Longer(xs: seq<Byte>, ys: seq<Byte>, n: nat)
    requires xs <= ys && |xs| + n <= |ys|
    ensures xs + ys[|xs|..|xs| + n] <= ys && |xs + ys[|xs|..|xs| + n]| == |xs| + n
  {
  }

  lemma StepKeeps(s: State, a: Action)
    requires Inv(s)
    ensures Inv(Step(s, a))
  {
    assert InBounds(s);
    hide Inv, PutStep, FlushStep, TestStep, TakeStep;
    match a
    case Put(bytes) => PutKeeps(s, bytes);
    case Flush => FlushKeeps(s);
    case Test => TestKeeps(s);
    case Card =>
      if s.queue != [] {
        match s.queue[0]
        case Write(_, _) => CardWriteKeeps(s);
        case Cas(_, _) => CardCasKeeps(s);
        case ReadHead => CardReadKeeps(s);
      }
    case Take(max) => TakeKeeps(s, max);
  }

  ghost function Exec(s: State, actions: seq<Action>): State {
    if actions == [] then s else Step(Exec(s, actions[..|actions| - 1]), actions[|actions| - 1])
  }

  lemma {:induction false} RunKeeps(cap: nat, actions: seq<Action>)
    requires cap > 0
    ensures Inv(Exec(Init(cap), actions))
  {
    if actions != [] {
      hide Inv, Step;
      RunKeeps(cap, actions[..|actions| - 1]);
      StepKeeps(Exec(Init(cap), actions[..|actions| - 1]), actions[|actions| - 1]);
    }
  }

  /** Main result: the mirrored ring refines the plain one. In every run, what the receiver has taken
      followed by what its ring holds is exactly a prefix of what the sender published; a posted CAS
      always finds the tail it expects; and once the card has caught up the remote tail is
      `last_tail` and the remote bytes from the remote head on are the local ones. */
  lemma RdmaRefinesRing(cap: nat, actions: seq<Action>)
    requires cap > 0
    ensures var s := Exec(Init(cap), actions);
            && InBounds(s)
            && s.received + Stored(s.rbuf, s.rhead, s.rtail) <= s.published
            && (s.queue != [] && s.queue[0].Cas? ==> s.queue[0].expected == s.rtail)
            && (s.queue == [] ==> s.rtail == s.lastTail && Stored(s.rbuf, s.rhead, s.lastTail) == Stored(s.lbuf, s.rhead, s.lastTail))
            && (s.queue == [] && s.lastTail == s.ltail ==> s.received + Stored(s.rbuf, s.rhead, s.rtail) == s.published)
  {
    RunKeeps(cap, actions);
    var s := Exec(Init(cap), actions);
    if s.queue != [] && s.queue[0].Cas? { CardCasKeeps(s); }
    Mirrored(s);
  }

  lemma Mirrored(s: State)
    requires Inv(s)
    ensures s.received + Stored(s.rbuf, s.rhead, s.rtail) == s.published[..s.at.rtail]
    ensures s.queue == [] ==> s.rtail == s.lastTail && Stored(s.rbuf, s.rhead, s.lastTail) == Stored(s.lbuf, s.rhead, s.lastTail)
    ensures s.queue == [] && s.lastTail == s.ltail ==> s.at.rtail == |s.published|
  {
    var h, cap := |s.received|, |s.lbuf|;
    hide Holds, Idx, Stored;
    HoldsPart(s.rbuf, s.published, h, s.at.written, h, s.at.rtail);
    HoldsPart(s.lbuf, s.published, s.at.lhead, |s.published|, h, s.at.last);
    StoredIs(s.rbuf, s.published, h, s.at.rtail);
    StoredIs(s.lbuf, s.published, h, s.at.last);
    assert s.received + s.published[h..s.at.rtail] == s.published[..s.at.rtail];
    if s.queue == [] && s.at.last < |s.published| { IdxApart(s.at.last, |s.published|, cap); }
  }

  /** The write at the front of the queue covers this much of the stream. */
  ghost predicate CardIsSafe(s: State)
    requires InBounds(s)
  {
    s.queue != [] && s.queue[0].Write? ==>
      var off, len, w := s.queue[0].off, s.queue[0].len, s.at.written;
      && off + len <= |s.lbuf| && w + len <= |s.published|
      && s.lbuf[off..off + len] == s.published[w..w + len]
      && Stored(Splice(s.rbuf, off, s.lbuf[off..off + len]), s.rhead, s.rtail) == Stored(s.rbuf, s.rhead, s.rtail)
  }

  /** The stale local head is safe: every write the card makes lands outside the bytes the receiver
      has yet to take, and carries the bytes that were published, however late the card reads them. */
  lemma PendingWritesAreSafe(cap: nat, actions: seq<Action>)
    requires cap > 0
    ensures InBounds(Exec(Init(cap), actions)) && CardIsSafe(Exec(Init(cap), actions))
  {
    RunKeeps(cap, actions);
    PendingWriteIsSafe(Exec(Init(cap), actions));
  }

  lemma PendingWriteIsSafe(s: State)
    requires Inv(s)
    ensures CardIsSafe(s)
  {
    hide Leads, Holds, Idx, Stored, Splice;
    if s.queue != [] && s.queue[0].Write? {
      var off, len, w, h := s.queue[0].off, s.queue[0].len, s.at.written, |s.received|;
      LeadsWrite(s.queue, w, s.at.rtail, s.at.last, |s.lbuf|);
      PieceIs(s.lbuf, s.published, s.at.lhead, |s.published|, w, len);
      SpliceHolds(s.rbuf, s.published, h, w, s.lbuf[off..off + len]);
      var after := Splice(s.rbuf, off, s.lbuf[off..off + len]);
      HoldsPart(s.rbuf, s.published, h, w, h, s.at.rtail);
      HoldsPart(after, s.published, h, w + len, h, s.at.rtail);
      StoredIs(s.rbuf, s.published, h, s.at.rtail);
      StoredIs(after, s.published, h, s.at.rtail);
    }
  }
}
