/** Progress of the shared ring: each side's own steps use up its call whatever the other side does, an
    empty or a full ring aside, and from every reachable state everything sent can be delivered. */
module RingProgress {
  import opened Bytes
  import opened RingIndex
  import opened RingProtocol

  // ---------------------------------------------------------------- what is left of a call

  /** Own steps to the end of the current turn of `try_get_bytes`. */
  function ConsumerStage(cap: nat, c: Consumer, done: nat): nat {
    match c
    case CIdle => 0
    case CLoop => cap + 6
    case CHead(_) => cap + 5
    case CNonEmpty => cap + 4
    case CSlice(_) => cap + 3
    case CCopy(_, n) => if done <= n then n - done + 2 else 2
  }

  /** Own steps to the end of the current turn of `put_bytes`, waiting for space not counted. */
  function ProducerStage(cap: nat, p: Producer): nat {
    match p
    case PIdle => 0
    case PLoop => cap + 6
    case PTail(_) => cap + 5
    case PSawHead(_, _) => cap + 4
    case PSlice(_) => cap + 3
    case PCopy(_, n, k) => if k <= n then n - k + 2 else 2
  }

  /** Less is left of the consumer's call: bytes wanted first, then steps of the turn. */
  ghost predicate ConsumerNearer(s: State, t: State) {
    t.want < s.want || (t.want == s.want && ConsumerStage(|t.buf|, t.c, |t.got|) < ConsumerStage(|s.buf|, s.c, |s.got|))
  }

  ghost predicate ProducerNearer(s: State, t: State) {
    |t.src| < |s.src| || (t.src == s.src && ProducerStage(|t.buf|, t.p) < ProducerStage(|s.buf|, s.p))
  }

  ghost predicate SameProducer(s: State, t: State) {
    && t.p == s.p && t.src == s.src && t.tail == s.tail && t.buf == s.buf
    && t.intended == s.intended && t.published == s.published
  }

  ghost predicate SameConsumer(s: State, t: State) {
    t.c == s.c && t.want == s.want && t.got == s.got && t.head == s.head && t.received == s.received && |t.buf| == |s.buf|
  }

  /** Every step of the consumer's own brings its call nearer its end, and a call that ends has delivered
      what it wanted or found the ring empty; the producer is not touched. */
  lemma ConsumeAdvances(s: State)
    requires Inv(s) && !s.c.CIdle?
    ensures var t := Step(s, Consume);
            && SameProducer(s, t) && ConsumerNearer(s, t)
            && (!t.c.CIdle? ==> |t.received| + t.want == |s.received| + s.want)
            && (t.c.CIdle? ==> t.received == s.received && t.head == s.head && (s.head == s.tail || s.want == 0))
  {
    hide Stored, Used, Conserved;
  }

  /** The ring was full when the producer last looked. */
  ghost predicate FindsFull(s: State) {
    s.p.PSawHead? && s.p.h < |s.buf| && s.tail < |s.buf| && IsFull(|s.buf|, s.p.h, s.tail)
  }

  /** The same for the producer, but for the step that finds the ring full and looks again. */
  lemma ProduceAdvances(s: State)
    requires Inv(s) && !s.p.PIdle?
    ensures var t := Step(s, Produce);
            && SameConsumer(s, t) && t.intended == s.intended
            && (if FindsFull(s) then t == s.(p := PTail(s.tail)) else ProducerNearer(s, t))
            && (t.p.PIdle? ==> s.src == [])
            && (t.src == s.src ==> t.tail == s.tail)
  {
    hide Stored, Conserved;
  }

  /** Over all runs: neither side's steps can put off the other's end, and its own bring it nearer. */
  lemma NeitherSideIsDelayed(cap: nat, actions: seq<Action>)
    requires cap > 0
    ensures var s := Exec(Init(cap), actions);
            var put, get := Step(s, Produce), Step(s, Consume);
            && SameConsumer(s, put) && SameProducer(s, get)
            && (!s.c.CIdle? ==> ConsumerNearer(s, get))
            && (!s.p.PIdle? && !FindsFull(s) ==> ProducerNearer(s, put))
  {
    RunKeeps(cap, actions);
    var s := Exec(Init(cap), actions);
    IdleSteps(s);
    hide Step, ConsumerNearer, ProducerNearer, FindsFull, Inv;
    if !s.c.CIdle? { ConsumeAdvances(s); }
    if !s.p.PIdle? { ProduceAdvances(s); }
  }

  lemma IdleSteps(s: State)
    requires Inv(s)
    ensures s.c.CIdle? ==> Step(s, Consume) == s
    ensures s.p.PIdle? ==> Step(s, Produce) == s
  {
  }

  // ---------------------------------------------------------------- delivering everything

  ghost predicate Reaches(cap: nat, actions: seq<Action>, s: State)
    requires cap > 0
  {
    Exec(Init(cap), actions) == s && Inv(s)
  }

  lemma OneStep(cap: nat, actions: seq<Action>, s: State, a: Action) returns (r: seq<Action>, t: State)
    requires cap > 0 && Reaches(cap, actions, s)
    ensures Reaches(cap, r, t) && t == Step(s, a) && actions <= r
  {
    hide Step, Inv;
    r, t := actions + [a], Step(s, a);
    assert r[..|actions|] == actions;
    StepKeeps(s, a);
  }

  /** The consumer alone ends its call, with all it wanted or on an empty ring. */
  lemma {:induction false} ConsumerEnds(cap: nat, actions: seq<Action>, s: State) returns (r: seq<Action>, t: State)
    requires cap > 0 && Reaches(cap, actions, s)
    ensures Reaches(cap, r, t) && actions <= r
    ensures t.c.CIdle? && SameProducer(s, t) && (s.c.CIdle? ==> t == s)
    ensures s.c.CIdle? || t.head == t.tail || |t.received| == |s.received| + s.want
    decreases s.want, ConsumerStage(|s.buf|, s.c, |s.got|)
  {
    hide Step, Inv;
    r, t := actions, s;
    if !s.c.CIdle? {
      ConsumeAdvances(s);
      var u;
      r, u := OneStep(cap, actions, s, Consume);
      r, t := ConsumerEnds(cap, r, u);
    }
  }

  /** A call for as many bytes as the ring has room for empties it. */
  lemma Drain(cap: nat, actions: seq<Action>, s: State) returns (r: seq<Action>, t: State)
    requires cap > 0 && Reaches(cap, actions, s)
    ensures Reaches(cap, r, t) && actions <= r
    ensures t.c.CIdle? && t.head == t.tail && SameProducer(s, t)
  {
    hide Step, Inv;
    var u;
    r, t := ConsumerEnds(cap, actions, s);
    r, u := OneStep(cap, r, t, StartGet(|t.buf|));
    StartedGet(t, |t.buf|);
    r, t := ConsumerEnds(cap, r, u);
    ReceivedFits(u, t);
  }

  lemma StartedGet(s: State, len: nat)
    requires Inv(s) && s.c.CIdle?
    ensures Step(s, StartGet(len)) == s.(c := CLoop, want := len)
  {
  }

  /** What a reader takes while the writer stands still is less than a whole ring. */
  lemma ReceivedFits(s: State, t: State)
    requires Inv(s) && Inv(t) && SameProducer(s, t)
    ensures |t.received| < |s.received| + |s.buf|
  {
    assert |s.received| + |Stored(s.buf, s.head, s.tail)| == |s.published|;
    StoredIsShort(s);
  }

  lemma StoredIsShort(s: State)
    requires Inv(s)
    ensures |Stored(s.buf, s.head, s.tail)| < |s.buf|
  {
  }

  /** Own steps to the next publication on an empty ring; a stale look at a full ring costs one more. */
  ghost function Ahead(s: State): nat {
    match s.p
    case PLoop => |s.buf| + 9
    case PSawHead(_, _) => if FindsFull(s) then |s.buf| + 8 else |s.buf| + 6
    case PTail(_) => |s.buf| + 7
    case _ => ProducerStage(|s.buf|, s.p)
  }

  lemma EmptyIsNotFull(s: State)
    requires Inv(s) && |s.buf| > 1 && s.head == s.tail && s.src != [] && !s.p.PIdle?
    ensures var t := Step(s, Produce);
            |t.src| < |s.src| || (t.src == s.src && t.tail == s.tail && !t.p.PIdle? && Ahead(t) < Ahead(s))
  {
    hide Stored, Conserved;
  }

  /** On an empty ring the producer alone publishes something, if it has anything to publish. */
  lemma {:induction false} ProducerPublishes(cap: nat, actions: seq<Action>, s: State) returns (r: seq<Action>, t: State)
    requires cap > 0 && Reaches(cap, actions, s) && |s.buf| > 1 && s.head == s.tail && s.src != [] && !s.p.PIdle?
    ensures Reaches(cap, r, t) && actions <= r
    ensures SameConsumer(s, t) && t.intended == s.intended && |t.src| < |s.src|
    decreases Ahead(s)
  {
    hide Step, Inv, Ahead;
    ProduceAdvances(s);
    EmptyIsNotFull(s);
    r, t := OneStep(cap, actions, s, Produce);
    if |t.src| == |s.src| {
      r, t := ProducerPublishes(cap, r, t);
    }
  }

  /** A producer with nothing left returns. */
  lemma {:induction false} ProducerReturns(cap: nat, actions: seq<Action>, s: State) returns (r: seq<Action>, t: State)
    requires cap > 0 && Reaches(cap, actions, s) && s.src == []
    ensures Reaches(cap, r, t) && actions <= r
    ensures SameConsumer(s, t) && t.intended == s.intended && t.p.PIdle?
  {
    NothingToPut(s);
    hide Step, Inv;
    r, t := actions, s;
    if !s.p.PIdle? {
      r, t := OneStep(cap, actions, s, Produce);
    }
  }

  lemma NothingToPut(s: State)
    requires Inv(s) && s.src == []
    ensures s.p.PIdle? || (s.p.PLoop? && Step(s, Produce) == s.(p := PIdle))
  {
  }

  lemma IdleHasNothing(s: State)
    requires Inv(s)
    ensures s.p.PIdle? ==> s.src == []
    ensures s.p.PIdle? && s.head == s.tail ==> s.received == s.intended
  {
  }

  /** Main result. From every reachable state some schedule of the two sides alone delivers everything
      ever sent and leaves both outside their calls, if the ring can hold a byte at all. */
  lemma {:induction false} EverythingIsDelivered(cap: nat, actions: seq<Action>) returns (r: seq<Action>)
    requires cap > 1
    ensures actions <= r
    ensures var s, t := Exec(Init(cap), actions), Exec(Init(cap), r);
            t.intended == s.intended && t.received == t.intended && t.p.PIdle? && t.c.CIdle? && t.head == t.tail
    decreases |Exec(Init(cap), actions).src|
  {
    hide Step, Inv, Exec, Init;
    var s, t := Exec(Init(cap), actions), Exec(Init(cap), actions);
    RunKeeps(cap, actions);
    CapacityStays(cap, actions);
    r, t := Drain(cap, actions, s);
    if t.src == [] {
      r, t := ProducerReturns(cap, r, t);
      r, t := Drain(cap, r, t);
      IdleHasNothing(t);
    } else {
      IdleHasNothing(t);
      r, t := ProducerPublishes(cap, r, t);
      r := EverythingIsDelivered(cap, r);
    }
  }

  lemma {:induction false} CapacityStays(cap: nat, actions: seq<Action>)
    requires cap > 0
    ensures |Exec(Init(cap), actions).buf| == cap
  {
    hide Inv;
    if actions != [] {
      CapacityStays(cap, actions[..|actions| - 1]);
      SameSize(Exec(Init(cap), actions[..|actions| - 1]), actions[|actions| - 1]);
    }
  }

  lemma SameSize(s: State, a: Action)
    ensures |Step(s, a).buf| == |s.buf|
  {
  }
}
