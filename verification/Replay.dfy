/** Replaying a serialized handle log: a byte vector stands in for the request ring, every received
    field is saved again, and each record goes through the dispatcher that recorded it. */
module Replay {
  import opened Bytes
  import opened Filters
  import opened Options
  import opened Wire
  import opened Stubs
  import Log = HandleLog
  import Table = HandleManager

  // ---------------------------------------------------------------- requests as table operations

  /** The value of an op-key expression, given the fields received for the call. */
  datatype Keys = Keys(value: (nat, seq<Value>) -> nat)

  const EXIT: nat := 0xFFFF_FFFF   // procedure id -1

  type Hooks = map<nat, Hook>

  ghost predicate HooksOk(hooks: Hooks) {
    forall id :: id in hooks ==> id < EXIT && hooks[id].procId == id && Accepted(hooks[id])
  }

  /** The word received for each parameter; 0 for those that send nothing. */
  function Words(params: seq<Param>, c: Config, values: seq<Value>): (r: seq<nat>)
    ensures |r| == |params|
  {
    if params == [] then []
    else if ServerReceives(params[0], c) == [] || values == [] then [0] + Words(params[1..], c, values)
    else [FromLe(values[0].bytes)] + Words(params[1..], c, values[1..])
  }

  function Saved(id: nat, values: seq<Value>): seq<Byte> { ToLe(id, 4) + EncodeAll(values) }

  predicate LooksUp(k: Kind) { k.InputHandle? && !k.op.Destroy? }

  ghost function EntryOf(h: Hook, c: Config, keys: Keys, values: seq<Value>): Log.Entry {
    var words := Words(h.params, c, values);
    var proxy := HandleProxy(h.params, words);
    var key := OpKey(h.params);
    Log.Entry(
      CreatesHandle(h.params),
      if proxy.Some? then proxy.value else 0,
      if key.Some? then Some(keys.value(key.value, values)) else None,
      LookedUp(h.params, words),
      Saved(h.procId, values))
  }

  ghost function LookedUp(params: seq<Param>, words: seq<nat>): set<nat>
    requires |words| == |params|
  {
    set i | 0 <= i < |params| && LooksUp(params[i].kind) && !SetsProxy(params[i].kind) :: words[i]
  }

  /** The lookups of a call that records nothing. */
  ghost function Lookups(params: seq<Param>, words: seq<nat>): seq<Log.Op>
    requires |words| == |params|
  {
    if params == [] then []
    else
      var last := |params| - 1;
      var k := params[last].kind;
      Lookups(params[..last], words[..last]) +
      if !k.InputHandle? then [] else if k.op.Destroy? then [Log.Destroy(words[last])] else [Log.Use({words[last]})]
  }

  datatype Request = Request(id: nat, values: seq<Value>)

  ghost function OpsOf(hooks: Hooks, c: Config, keys: Keys, r: Request): seq<Log.Op> {
    if !c.shadowDesc || r.id !in hooks then []
    else if Records(hooks[r.id], c) then [Log.Record(EntryOf(hooks[r.id], c, keys, r.values))]
    else Lookups(hooks[r.id].params, Words(hooks[r.id].params, c, r.values))
  }

  ghost function AllOps(hooks: Hooks, c: Config, keys: Keys, rs: seq<Request>): seq<Log.Op> {
    if rs == [] then [] else AllOps(hooks, c, keys, rs[..|rs| - 1]) + OpsOf(hooks, c, keys, rs[|rs| - 1])
  }

  // ---------------------------------------------------------------- parsing a byte stream

  /** How the request loop leaves a byte stream: at its end, on request -1, or by a panic. */
  datatype End = Eof | Exited | Panicked

  datatype Parsed = Parsed(requests: seq<Request>, end: End)

  ghost function Parse(hooks: Hooks, c: Config, s: seq<Byte>): Parsed
    decreases |s|
  {
    if |s| < 4 then Parsed([], Eof)
    else
      var id := FromLe(s[..4]);
      if id == EXIT then Parsed([], Exited)
      else if id !in hooks then Parsed([], Panicked)
      else match DecodeAll(ServerRequest(hooks[id], c), s[4..])
        case None => Parsed([], Panicked)
        case Some((values, rest)) =>
          if |rest| >= |s| then Parsed([], Panicked)
          else
            var more := Parse(hooks, c, rest);
            Parsed([Request(id, values)] + more.requests, more.end)
  }

  ghost predicate WellTypedRequest(hooks: Hooks, c: Config, r: Request) {
    r.id in hooks && AllWellTyped(ServerRequest(hooks[r.id], c), r.values)
  }

  lemma {:induction false} ParsedAreWellTyped(hooks: Hooks, c: Config, s: seq<Byte>)
    ensures forall r :: r in Parse(hooks, c, s).requests ==> WellTypedRequest(hooks, c, r)
    decreases |s|
  {
    hide DecodeAll, AllWellTyped, ServerRequest, FromLe;
    if |s| >= 4 {
      var id := FromLe(s[..4]);
      if id != EXIT && id in hooks {
        var d := DecodeAll(ServerRequest(hooks[id], c), s[4..]);
        if d.Some? && |d.value.1| < |s| {
          DecodeAllOnto(ServerRequest(hooks[id], c), s[4..]);
          ParsedAreWellTyped(hooks, c, d.value.1);
        }
      }
    }
  }

  lemma FourBytes()
    ensures EXIT < Pow256(4)
  {
  }

  /** One saved record parses as itself, whatever follows it. */
  lemma ParseOne(hooks: Hooks, c: Config, r: Request, rest: seq<Byte>)
    requires HooksOk(hooks) && WellTypedRequest(hooks, c, r)
    ensures var more := Parse(hooks, c, rest);
            Parse(hooks, c, Saved(r.id, r.values) + rest) == Parsed([r] + more.requests, more.end)
  {
    hide ServerRequest, DecodeAll, EncodeAll, AllWellTyped, ToLe, FromLe, Pow256, Accepted;
    var id, body := ToLe(r.id, 4), EncodeAll(r.values);
    var s := Saved(r.id, r.values) + rest;
    FourBytes();
    LeRoundTrip(r.id, 4);
    assert s[..4] == id && s[4..] == body + rest;
    DecodeEncodeAll(ServerRequest(hooks[r.id], c), r.values, rest);
  }

  // ---------------------------------------------------------------- a log reads back as itself

  ghost predicate IsRecord(hooks: Hooks, c: Config, keys: Keys, e: Log.Entry) {
    exists r :: WellTypedRequest(hooks, c, r) && Records(hooks[r.id], c) && e == EntryOf(hooks[r.id], c, keys, r.values)
  }

  ghost predicate AllRecords(hooks: Hooks, c: Config, keys: Keys, log: seq<Log.Entry>) {
    forall i :: 0 <= i < |log| ==> IsRecord(hooks, c, keys, log[i])
  }

  ghost function Recording(log: seq<Log.Entry>): seq<Log.Op> { Mapped(log, (e: Log.Entry) => Log.Record(e)) }

  lemma AllOpsAppend(hooks: Hooks, c: Config, keys: Keys, rs: seq<Request>, r: Request)
    ensures AllOps(hooks, c, keys, rs + [r]) == AllOps(hooks, c, keys, rs) + OpsOf(hooks, c, keys, r)
  {
    assert (rs + [r])[..|rs|] == rs;
  }

  /** A serialized log in front of any bytes parses into requests that record exactly that log. */
  lemma {:induction false} LogParses(hooks: Hooks, c: Config, keys: Keys, log: seq<Log.Entry>, rest: seq<Byte>)
    returns (rs: seq<Request>)
    requires HooksOk(hooks) && AllRecords(hooks, c, keys, log)
    ensures var more := Parse(hooks, c, rest);
            Parse(hooks, c, Table.LogBytes(log) + rest) == Parsed(rs + more.requests, more.end)
    ensures AllOps(hooks, c, keys, rs) == Recording(log)
  {
    hide Parse, HooksOk, IsRecord, OpsOf, AllOps, Table.LogBytes, Recording;
    if log == [] {
      rs := [];
      EmptyLog(hooks, c, keys, rest);
      assert [] + Parse(hooks, c, rest).requests == Parse(hooks, c, rest).requests;
    } else {
      var front, e := log[..|log| - 1], log[|log| - 1];
      assert log == front + [e];
      var r := RecordParses(hooks, c, keys, e, rest);
      var rs' := LogParses(hooks, c, keys, front, e.args + rest);
      rs := rs' + [r];
      AppendLog(front, e, rest);
      AllOpsAppend(hooks, c, keys, rs', r);
      var more := Parse(hooks, c, rest).requests;
      assert rs' + ([r] + more) == rs + more;
    }
  }

  lemma EmptyLog(hooks: Hooks, c: Config, keys: Keys, rest: seq<Byte>)
    ensures Table.LogBytes([]) + rest == rest
    ensures AllOps(hooks, c, keys, []) == Recording([])
  {
  }

  lemma AppendLog(front: seq<Log.Entry>, e: Log.Entry, rest: seq<Byte>)
    ensures Table.LogBytes(front + [e]) + rest == Table.LogBytes(front) + (e.args + rest)
    ensures Recording(front + [e]) == Recording(front) + [Log.Record(e)]
  {
    assert (front + [e])[..|front|] == front;
  }

  lemma RecordParses(hooks: Hooks, c: Config, keys: Keys, e: Log.Entry, rest: seq<Byte>) returns (r: Request)
    requires HooksOk(hooks) && IsRecord(hooks, c, keys, e)
    ensures var more := Parse(hooks, c, rest);
            Parse(hooks, c, e.args + rest) == Parsed([r] + more.requests, more.end)
    ensures OpsOf(hooks, c, keys, r) == [Log.Record(e)]
  {
    hide Parse, AllWellTyped, ServerRequest, EntryOf, HooksOk, Saved;
    r :| WellTypedRequest(hooks, c, r) && Records(hooks[r.id], c) && e == EntryOf(hooks[r.id], c, keys, r.values);
    SavedArgs(hooks, c, keys, r);
    ParseOne(hooks, c, r, rest);
  }

  lemma SavedArgs(hooks: Hooks, c: Config, keys: Keys, r: Request)
    requires HooksOk(hooks) && r.id in hooks
    ensures EntryOf(hooks[r.id], c, keys, r.values).args == Saved(r.id, r.values)
  {
  }

  lemma {:induction false} LookupsRecordNothing(params: seq<Param>, words: seq<nat>)
    requires |words| == |params|
    ensures forall op :: op in Lookups(params, words) ==> !op.Record?
  {
    if params != [] {
      LookupsRecordNothing(params[..|params| - 1], words[..|params| - 1]);
    }
  }

  lemma {:induction false} OpsAreRecords(hooks: Hooks, c: Config, keys: Keys, rs: seq<Request>)
    requires forall r :: r in rs ==> WellTypedRequest(hooks, c, r)
    ensures forall op :: op in AllOps(hooks, c, keys, rs) && op.Record? ==> IsRecord(hooks, c, keys, op.e)
  {
    hide WellTypedRequest, EntryOf, Lookups;
    if rs != [] {
      OpsAreRecords(hooks, c, keys, rs[..|rs| - 1]);
      var r := rs[|rs| - 1];
      assert WellTypedRequest(hooks, c, r);
      if r.id in hooks && !Records(hooks[r.id], c) {
        LookupsRecordNothing(hooks[r.id].params, Words(hooks[r.id].params, c, r.values));
      }
    }
  }

  /** Whatever the log holds was recorded by some call. */
  lemma {:induction false} LogIsFromOps<S(!new)>(d: Log.Driver<S>, ops: seq<Log.Op>)
    requires Log.Run(d, Log.Start(), ops).State?
    ensures forall e :: e in Log.Run(d, Log.Start(), ops).log ==> Log.Record(e) in ops
  {
    if ops != [] {
      var before, op := ops[..|ops| - 1], ops[|ops| - 1];
      LogIsFromOps(d, before);
      StepLog(d, Log.Run(d, Log.Start(), before), op);
      assert forall o :: o in before ==> o in ops;
      assert op in ops;
    }
  }

  lemma StepLog<S(!new)>(d: Log.Driver<S>, s: Log.State<S>, op: Log.Op)
    requires s.State? && Log.Step(d, s, op).State?
    ensures forall e :: e in Log.Step(d, s, op).log ==> e in s.log || Log.Record(e) == op
  {
    if op.Destroy? { FilterContents(s.log, Log.NotOf(op.proxy)); }
    if op.Record? {
      FilterContents(s.log, Log.NotOf(op.e.proxy));
      if op.e.key.Some? { FilterContents(s.log, Log.NotKey(op.e.proxy, op.e.key.value)); }
    }
  }

  lemma {:induction false} RecordingReplays<S(!new)>(d: Log.Driver<S>, log: seq<Log.Entry>)
    ensures Log.Run(d, Log.Start(), Recording(log)) == Log.Replay(d, log)
  {
    if log != [] {
      RecordingReplays(d, log[..|log| - 1]);
      assert Recording(log)[..|log| - 1] == Recording(log[..|log| - 1]);
    }
  }

  /** Main result. Take any byte stream of requests a worker has served without panicking, and
      serialize the handle log it leaves. Read back through the same request loop, those bytes parse
      into exactly the log's records and end with the vector at a record boundary. Replaying them
      gets through exactly when the log is replayable (uses live, creations kept), and then the table, its
      log and the driver objects are the original's, so they serialize to identical bytes. */
  lemma SerializedLogRestores<S(!new)>(d: Log.Driver<S>, hooks: Hooks, c: Config, keys: Keys, stream: seq<Byte>)
    requires HooksOk(hooks) && d.KeysAreSound()
    requires Log.LawfulHistory(d, AllOps(hooks, c, keys, Parse(hooks, c, stream).requests))
    ensures var s := Log.Run(d, Log.Start(), AllOps(hooks, c, keys, Parse(hooks, c, stream).requests));
            var p := Parse(hooks, c, Table.LogBytes(s.log));
            var r := Log.Run(d, Log.Start(), AllOps(hooks, c, keys, p.requests));
            && p.end == Eof && AllOps(hooks, c, keys, p.requests) == Recording(s.log)
            && (r.State? <==> Log.Replayable(s.log, s.live))
            && (r.State? ==> r == s && Table.LogBytes(r.log) == Table.LogBytes(s.log))
  {
    var requests := Parse(hooks, c, stream).requests;
    var ops := AllOps(hooks, c, keys, requests);
    hide *;
    RanWell(d, ops);
    LogIsFromOps(d, ops);
    ParsedAreWellTyped(hooks, c, stream);
    OpsAreRecords(hooks, c, keys, requests);
    var s := Log.Run(d, Log.Start(), ops);
    LogIsRecorded(hooks, c, keys, ops, s.log);
    LogReadsBack(hooks, c, keys, s.log);
    RecordingReplays(d, s.log);
    Log.ReplayIsFaithful(d, ops);
  }

  lemma RanWell<S(!new)>(d: Log.Driver<S>, ops: seq<Log.Op>)
    requires Log.LawfulHistory(d, ops)
    ensures Log.Run(d, Log.Start(), ops).State?
  {
  }

  lemma LogIsRecorded(hooks: Hooks, c: Config, keys: Keys, ops: seq<Log.Op>, log: seq<Log.Entry>)
    requires forall e :: e in log ==> Log.Record(e) in ops
    requires forall op :: op in ops && op.Record? ==> IsRecord(hooks, c, keys, op.e)
    ensures AllRecords(hooks, c, keys, log)
  {
    hide IsRecord;
    forall i | 0 <= i < |log| ensures IsRecord(hooks, c, keys, log[i]) {
      assert log[i] in log;
      assert Log.Record(log[i]) in ops;
    }
  }

  lemma LogReadsBack(hooks: Hooks, c: Config, keys: Keys, log: seq<Log.Entry>)
    requires HooksOk(hooks) && AllRecords(hooks, c, keys, log)
    ensures var p := Parse(hooks, c, Table.LogBytes(log));
            p.end == Eof && AllOps(hooks, c, keys, p.requests) == Recording(log)
  {
    hide AllOps, AllRecords, Recording, HooksOk, Table.LogBytes;
    var rs := LogParses(hooks, c, keys, log, []);
    assert Table.LogBytes(log) + [] == Table.LogBytes(log);
    assert rs + [] == rs;
  }
}
