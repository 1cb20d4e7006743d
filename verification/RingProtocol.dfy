/** One producer and one consumer over a shared ring, every volatile access and every copied byte a
    step of its own. A run is an arbitrary sequence of actions, so every interleaving is covered. */
module RingProtocol {
  import opened Bytes
  import opened RingIndex

  /** Program points of `put_bytes`. */
  datatype Producer =
    | PIdle                              // outside put_bytes
    | PLoop                              // at the loop test
    | PTail(t: nat)                      // own tail read; about to read head for the full test
    | PSawHead(t: nat, h: nat)           // full test: head read, tail not yet
    | PSlice(t: nat)                     // full test passed; about to read head again
    | PCopy(t: nat, n: nat, k: nat)      // k of n bytes of the slice at t written

  /** Program points of `try_get_bytes`. */
  datatype Consumer =
    | CIdle                              // outside try_get_bytes
    | CLoop                              // at the loop test
    | CHead(h: nat)                      // empty test: head read, tail not yet
    | CNonEmpty                          // empty test passed; about to read head again
    | CSlice(h: nat)                     // about to read tail for the slice
    | CCopy(h: nat, n: nat)              // copying the slice of n bytes at h

  datatype State = State(
    buf: seq<Byte>, head: nat, tail: nat,
    p: Producer, src: seq<Byte>,         // src: what the running put_bytes still has to publish
    c: Consumer, want: nat,              // want: what the running try_get_bytes may still deliver
    got: seq<Byte>,                      // bytes of the current slice already copied out
    intended: seq<Byte>,                 // everything ever handed to put_bytes
    published: seq<Byte>,                // everything the tail was moved over
    received: seq<Byte>)                 // everything the head was moved over

  datatype Action = StartPut(bytes: seq<Byte>) | Produce | StartGet(len: nat) | Consume

  function Init(cap: nat): State
    requires cap > 0
  {
    State(seq(cap, _ => 0), 0, 0, PIdle, [], CIdle, 0, [], [], [], [])
  }

  ghost predicate ProducerInBounds(cap: nat, p: Producer, src: seq<Byte>) {
    match p
    case PIdle => true
    case PLoop => true
    case PTail(t) => t < cap
    case PSawHead(t, h) => t < cap && h < cap
    case PSlice(t) => t < cap
    case PCopy(t, n, k) => t < cap && k <= n <= |src| && t + n <= cap
  }

  ghost predicate ConsumerInBounds(cap: nat, c: Consumer, want: nat, got: seq<Byte>) {
    match c
    case CIdle => true
    case CLoop => true
    case CHead(h) => h < cap
    case CNonEmpty => true
    case CSlice(h) => h < cap
    case CCopy(h, n) => h < cap && |got| <= n <= want && h + n <= cap
  }

  /** Indices in range: what the `assert!`s of both loops check. */
  ghost predicate InBounds(s: State) {
    && s.head < |s.buf| && s.tail < |s.buf|
    && ProducerInBounds(|s.buf|, s.p, s.src)
    && ConsumerInBounds(|s.buf|, s.c, s.want, s.got)
  }

  ghost function ProducerStep(s: State): State
    requires InBounds(s)
  {
    var cap := |s.buf|;
    match s.p
    case PIdle => s
    case PLoop => if s.src == [] then s.(p := PIdle) else s.(p := PTail(s.tail))
    case PTail(t) => s.(p := PSawHead(t, s.head))
    // a full ring sends put_bytes into flush_out, which spins on the same test
    case PSawHead(t, h) => s.(p := if IsFull(cap, h, s.tail) then PTail(t) else PSlice(t))
    case PSlice(t) => s.(p := PCopy(t, WriteLen(cap, s.head, t, |s.src|), 0))
    case PCopy(t, n, k) =>
      if k < n then s.(buf := s.buf[t + k := s.src[k]], p := PCopy(t, n, k + 1))
      else s.(tail := Advance(cap, t, n), published := s.published + s.src[..n], src := s.src[n..], p := PLoop)
  }

  ghost function ConsumerStep(s: State): State
    requires InBounds(s)
  {
    var cap := |s.buf|;
    match s.c
    case CIdle => s
    case CLoop => if s.want == 0 then s.(c := CIdle) else s.(c := CHead(s.head))
    case CHead(h) => if h == s.tail then s.(c := CIdle, want := 0) else s.(c := CNonEmpty)
    case CNonEmpty => s.(c := CSlice(s.head))
    case CSlice(h) => s.(c := CCopy(h, ReadLen(cap, h, s.tail, s.want)))
    case CCopy(h, n) =>
      if |s.got| < n then s.(got := s.got + [s.buf[h + |s.got|]])
      else s.(head := Advance(cap, h, n), received := s.received + s.got, got := [],
              want := s.want - n, c := CLoop)
  }

  /** An index out of range trips an `assert!` and halts the run; a disabled action does nothing. */
  ghost function Step(s: State, a: Action): State {
    if !InBounds(s) then s else match a
    case StartPut(bytes) =>
      if s.p.PIdle? then s.(p := PLoop, src := bytes, intended := s.intended + bytes) else s
    case Produce => ProducerStep(s)
    case StartGet(len) => if s.c.CIdle? then s.(c := CLoop, want := len) else s
    case Consume => ConsumerStep(s)
  }

  ghost predicate ProducerInv(buf: seq<Byte>, head: nat, tail: nat, p: Producer, src: seq<Byte>)
    requires head < |buf| && tail < |buf| && ProducerInBounds(|buf|, p, src)
  {
    var cap := |buf|;
    match p
    case PIdle => src == []
    case PLoop => true
    case PTail(t) => t == tail && src != []
    case PSawHead(t, h) => t == tail && src != [] && Used(cap, head, t) <= Used(cap, h, t)
    case PSlice(t) => t == tail && src != [] && !IsFull(cap, head, t)
    case PCopy(t, n, k) =>
      t == tail && 0 < n && Used(cap, head, t) + n <= cap - 1 && buf[t..t + k] == src[..k]
  }

  ghost predicate ConsumerInv(buf: seq<Byte>, head: nat, tail: nat, c: Consumer, want: nat, got: seq<Byte>)
    requires head < |buf| && tail < |buf|
  {
    && got <= Stored(buf, head, tail)
    && match c
       case CIdle => got == []
       case CLoop => got == []
       case CHead(h) => got == [] && h == head && want > 0
       case CNonEmpty => got == [] && head != tail && want > 0
       case CSlice(h) => got == [] && h == head && head != tail && want > 0
       case CCopy(h, n) => h == head && 0 < n <= Used(|buf|, head, tail)
  }

  /** Nothing lost, duplicated, reordered or overwritten. */
  ghost predicate Conserved(buf: seq<Byte>, head: nat, tail: nat, src: seq<Byte>,
                            intended: seq<Byte>, published: seq<Byte>, received: seq<Byte>)
    requires head < |buf| && tail < |buf|
  {
    && received + Stored(buf, head, tail) == published
    && published + src == intended
  }

  ghost predicate Inv(s: State) {
    && InBounds(s)
    && Conserved(s.buf, s.head, s.tail, s.src, s.intended, s.published, s.received)
    && ProducerInv(s.buf, s.head, s.tail, s.p, s.src)
    && ConsumerInv(s.buf, s.head, s.tail, s.c, s.want, s.got)
  }

  lemma CopyByteKeeps(s: State)
    requires Inv(s) && s.p.PCopy? && s.p.k < s.p.n
    ensures Inv(ProducerStep(s))
  {
    hide Stored, Used, IsFull, WriteLen, ReadLen;
    var t, n, k := s.p.t, s.p.n, s.p.k;
    FreeWriteKeepsStored(s.buf, s.head, t, k, s.src[k]);
    assert s.buf[t + k := s.src[k]][t..t + k + 1] == s.buf[t..t + k] + [s.src[k]];
  }

  lemma PublishKeeps(s: State)
    requires Inv(s) && s.p.PCopy? && s.p.k == s.p.n
    ensures Inv(ProducerStep(s))
  {
    var t, n := s.p.t, s.p.n;
    PublishAppends(s.buf, s.head, t, n);
    assert s.src[..n] + s.src[n..] == s.src;
  }

  /** Producer steps that touch nothing shared. */
  lemma ProducerReadKeeps(s: State)
    requires Inv(s) && !s.p.PCopy?
    ensures Inv(ProducerStep(s))
  {
    if s.p.PSlice? {
      WriteLenFits(|s.buf|, s.head, s.p.t, |s.src|);
      WriteProgress(|s.buf|, s.head, s.head, s.p.t, |s.src|);
    }
  }

  lemma CopyOutKeeps(s: State)
    requires Inv(s) && s.c.CCopy? && |s.got| < s.c.n
    ensures Inv(ConsumerStep(s))
  {
    var h, n := s.c.h, s.c.n;
    ConsumeDrops(s.buf, h, s.tail, n);
    var all := Stored(s.buf, h, s.tail);
    assert all[|s.got|] == all[..n][|s.got|] == s.buf[h + |s.got|];
  }

  lemma ReleaseKeeps(s: State)
    requires Inv(s) && s.c.CCopy? && |s.got| == s.c.n
    ensures Inv(ConsumerStep(s))
  {
    var h, n := s.c.h, s.c.n;
    ConsumeDrops(s.buf, h, s.tail, n);
    var all := Stored(s.buf, h, s.tail);
    assert s.got == all[..n];
    assert s.received + all == s.received + all[..n] + all[n..];
  }

  /** Consumer steps that touch nothing shared. */
  lemma ConsumerReadKeeps(s: State)
    requires Inv(s) && !s.c.CCopy?
    ensures Inv(ConsumerStep(s))
  {
  }

  lemma StepKeeps(s: State, a: Action)
    requires Inv(s)
    ensures Inv(Step(s, a))
  {
    match a
    case StartPut(bytes) => assert s.p.PIdle? ==> s.published + bytes == s.intended + bytes;
    case Produce =>
      if !s.p.PCopy? { ProducerReadKeeps(s); }
      else if s.p.k < s.p.n { CopyByteKeeps(s); }
      else { PublishKeeps(s); }
    case StartGet(_) =>
    case Consume =>
      if !s.c.CCopy? { ConsumerReadKeeps(s); }
      else if |s.got| < s.c.n { CopyOutKeeps(s); }
      else { ReleaseKeeps(s); }
  }

  /** The state after a run; the schedule is the action sequence. */
  ghost function Exec(s: State, actions: seq<Action>): State {
    if actions == [] then s else Step(Exec(s, actions[..|actions| - 1]), actions[|actions| - 1])
  }

  lemma {:induction false} RunKeeps(cap: nat, actions: seq<Action>)
    requires cap > 0
    ensures Inv(Exec(Init(cap), actions))
  {
    if actions != [] {
      var before := actions[..|actions| - 1];
      RunKeeps(cap, before);
      StepKeeps(Exec(Init(cap), before), actions[|actions| - 1]);
    }
  }

  /** Main result: whatever the interleaving, the consumer has read a prefix of what was published,
      the ring holds exactly the rest, and what was published is a prefix of what was sent; when
      the producer is idle and the ring is empty the two streams are equal. */
  lemma NoLossNoReordering(cap: nat, actions: seq<Action>)
    requires cap > 0
    ensures var s := Exec(Init(cap), actions);
            && InBounds(s)
            && s.received + Stored(s.buf, s.head, s.tail) == s.published
            && s.published <= s.intended
            && (s.p.PIdle? ==> s.published == s.intended)
            && (s.p.PIdle? && s.head == s.tail ==> s.received == s.intended)
  {
    RunKeeps(cap, actions);
  }

  /** Every slice either side is about to copy is non-empty, so each turn of both loops strictly
      shrinks what is left to do; the other side's moves in between cannot empty it. */
  lemma EveryTurnMakesProgress(cap: nat, actions: seq<Action>)
    requires cap > 0
    ensures var s := Exec(Init(cap), actions);
            && InBounds(s)
            && (s.p.PCopy? && s.p.k == s.p.n ==> |ProducerStep(s).src| < |s.src|)
            && (s.c.CCopy? && |s.got| == s.c.n ==> ConsumerStep(s).want < s.want)
  {
    RunKeeps(cap, actions);
  }
}
