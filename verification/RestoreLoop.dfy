/** The code that replays: the byte vector standing in for the request ring, the session that saves
    what it receives, and the request loop that dispatches records into a handle table. */
module RestoreLoop {
  import opened Bytes
  import opened Filters
  import opened Options
  import opened Wire
  import opened Stubs
  import opened Replay
  import Log = HandleLog
  import Table = HandleManager

  // ---------------------------------------------------------------- the channel and the session

  class RestoreVec {
    const vec: seq<Byte>
    var pos: nat

    ghost predicate Valid()
      reads this
    {
      pos <= |vec|
    }

    ghost function Rest(): seq<Byte>
      reads this
      requires Valid()
    {
      vec[pos..]
    }

    constructor (bytes: seq<Byte>)
      ensures Valid() && Rest() == bytes
    {
      vec, pos := bytes, 0;
    }

    /** `get_bytes`: the next `n` bytes, or None, end of log, with the cursor where it was. */
    method GetBytes(n: nat) returns (r: Option<seq<Byte>>)
      requires Valid()
      modifies this
      ensures Valid()
      ensures r.None? <==> |old(Rest())| < n
      ensures if r.Some? then |r.value| == n && old(Rest()) == r.value + Rest() else Rest() == old(Rest())
    {
      var end := pos + n;
      if end > |vec| { return None; }
      r := Some(vec[pos..end]);
      pos := end;
    }
  }

  class RecvSession {
    const channel: RestoreVec
    var save: Option<seq<Byte>>

    /** `begin_server`: a session that saves starts with the procedure id. */
    constructor (channel: RestoreVec, saving: bool, procId: nat)
      ensures this.channel == channel
      ensures save == if saving then Some(ToLe(procId, 4)) else None
    {
      this.channel := channel;
      save := if saving then Some(ToLe(procId, 4)) else None;
    }

    method Save(v: Value)
      modifies this`save
      ensures save == if old(save).Some? then Some(old(save).value + Encode(v)) else None
    {
      if save.Some? { save := Some(save.value + Encode(v)); }
    }

    /** `recv_slice`, without saving. */
    method RecvItems(elem: nat) returns (v: Option<Value>)
      requires channel.Valid()
      modifies channel
      ensures channel.Valid()
      ensures v.None? <==> DecodeItems(elem, old(channel.Rest())).None?
      ensures v.Some? ==> DecodeItems(elem, old(channel.Rest())) == Some((v.value, channel.Rest()))
    {
      hide FromLe;
      ghost var s := channel.Rest();
      var word := channel.GetBytes(WORD);
      if word.None? { return None; }
      assert s[..WORD] == word.value;
      assert s[WORD..] == channel.Rest();
      var count := FromLe(word.value);
      var bytes := channel.GetBytes(count * elem);
      if bytes.None? { return None; }
      v := Some(Items(count, bytes.value));
      assert s[WORD..WORD + count * elem] == bytes.value;
      assert s[WORD + count * elem..] == channel.Rest();
    }

    /** `recv`, `recv_slice`, `recv_cstr`: one field, saved in the form it was received in. None is
        the panic on a truncated field or a malformed string. */
    method Recv(t: FieldType) returns (v: Option<Value>)
      requires channel.Valid()
      modifies this`save, channel
      ensures channel.Valid()
      ensures v.None? <==> Decode(t, old(channel.Rest())).None?
      ensures v.Some? ==> Decode(t, old(channel.Rest())) == Some((v.value, channel.Rest()))
      ensures v.Some? ==> save == if old(save).Some? then Some(old(save).value + Encode(v.value)) else None
    {
      hide DecodeItems;
      match t {
        case Fixed(size) =>
          var bytes := channel.GetBytes(size);
          if bytes.None? { return None; }
          v := Some(Raw(bytes.value));
        case Slice(elem) =>
          v := RecvItems(elem);
          if v.None? { return; }
        case CStr =>
          v := RecvItems(1);
          if v.None? { return; }
          if !IsCString(v.value.bytes) { return None; }
      }
      Save(v.value);
    }

    /** The receive statements of a stub, in order. */
    method RecvAll(ts: seq<FieldType>) returns (r: Option<seq<Value>>)
      requires channel.Valid()
      modifies this`save, channel
      ensures channel.Valid()
      ensures r.None? <==> DecodeAll(ts, old(channel.Rest())).None?
      ensures r.Some? ==> DecodeAll(ts, old(channel.Rest())) == Some((r.value, channel.Rest()))
      ensures r.Some? ==> save == if old(save).Some? then Some(old(save).value + EncodeAll(r.value)) else None
    {
      hide Decode, Encode;
      ghost var before := if save.Some? then save.value else [];
      if ts == [] {
        assert before + [] == before;
        return Some([]);
      }
      var v := Recv(ts[0]);
      if v.None? { return None; }
      var vs := RecvAll(ts[1..]);
      if vs.None? { return None; }
      r := Some([v.value] + vs.value);
      assert r.value[1..] == vs.value;
      assert before + Encode(v.value) + EncodeAll(vs.value) == before + EncodeAll(r.value);
    }
  }

  // ---------------------------------------------------------------- dispatching a request

  ghost predicate Mirrors(log: seq<Table.Stamped>, keys: set<nat>, s: Log.State<()>) {
    s.State? && s.log == Table.Entries(log) && s.live == keys == s.objects.Keys
  }

  lemma {:induction false} RunConcat<S(!new)>(d: Log.Driver<S>, s: Log.State<S>, a: seq<Log.Op>, b: seq<Log.Op>)
    ensures Log.Run(d, s, a + b) == Log.Run(d, Log.Run(d, s, a), b)
  {
    hide Log.Step;
    if b == [] {
      assert a + b == a;
    } else {
      var b' := b[..|b| - 1];
      RunConcat(d, s, a, b');
      assert (a + b)[..|a + b| - 1] == a + b';
    }
  }

  lemma RunOne<S(!new)>(d: Log.Driver<S>, s: Log.State<S>, op: Log.Op)
    ensures Log.Run(d, s, [op]) == Log.Step(d, s, op)
  {
    assert Log.Run(d, s, [op][..0]) == s;
  }

  lemma {:induction false} PanicStays<S(!new)>(d: Log.Driver<S>, ops: seq<Log.Op>)
    ensures Log.Run(d, Log.Panicked, ops) == Log.Panicked
  {
    if ops != [] { PanicStays(d, ops[..|ops| - 1]); }
  }

  lemma LookupsNext(params: seq<Param>, words: seq<nat>, i: nat)
    requires |words| == |params| && i < |params|
    ensures Lookups(params[..i + 1], words[..i + 1]) == Lookups(params[..i], words[..i]) +
              if !params[i].kind.InputHandle? then []
              else if params[i].kind.op.Destroy? then [Log.Destroy(words[i])] else [Log.Use({words[i]})]
  {
    assert params[..i + 1][..i] == params[..i] && words[..i + 1][..i] == words[..i];
  }

  ghost function After(s: Log.State<()>, params: seq<Param>, words: seq<nat>, i: nat): Log.State<()>
    requires |words| == |params| && i <= |params|
  {
    Log.Run(Log.Plain(), s, Lookups(params[..i], words[..i]))
  }

  ghost function LookupOp(k: Kind, word: nat): Log.Op
    requires k.InputHandle?
  {
    if k.op.Destroy? then Log.Destroy(word) else Log.Use({word})
  }

  lemma AfterNext(s: Log.State<()>, params: seq<Param>, words: seq<nat>, i: nat)
    requires |words| == |params| && i < |params|
    ensures var k, next := params[i].kind, After(s, params, words, i + 1);
            next == if k.InputHandle? then Log.Step(Log.Plain(), After(s, params, words, i), LookupOp(k, words[i]))
                    else After(s, params, words, i)
  {
    hide Log.Run, Log.Step, Lookups;
    LookupsNext(params, words, i);
    var before := Lookups(params[..i], words[..i]);
    if params[i].kind.InputHandle? {
      var op := LookupOp(params[i].kind, words[i]);
      RunConcat(Log.Plain(), s, before, [op]);
      RunOne(Log.Plain(), Log.Run(Log.Plain(), s, before), op);
    } else {
      assert before + [] == before;
    }
  }

  lemma {:induction false} AfterPanic(s: Log.State<()>, params: seq<Param>, words: seq<nat>, i: nat)
    requires |words| == |params| && i <= |params| && After(s, params, words, i).Panicked?
    ensures After(s, params, words, |params|).Panicked?
    decreases |params| - i
  {
    hide After;
    if i < |params| {
      AfterNext(s, params, words, i);
      AfterPanic(s, params, words, i + 1);
    }
  }

  /** Every handle in the table stands for the driver object its creation returned. */
  ghost predicate Bound(handles: map<nat, Table.Handle>, objects: map<nat, nat>) {
    forall p :: p in handles ==> p in objects && handles[p].value == objects[p]
  }

  /** What the driver is given for a proxy: its object, and null for null. */
  ghost function ObjectOf(objects: map<nat, nat>, proxy: nat): nat {
    if proxy != 0 && proxy in objects then objects[proxy] else 0
  }

  method LookUp(m: Table.Manager, k: Kind, word: nat, ghost objects: map<nat, nat>, ghost s: Log.State<()>)
    returns (ok: bool, arg: nat)
    requires m.Valid() && Mirrors(m.log, m.handles.Keys, s) && k.InputHandle? && Bound(m.handles, objects)
    modifies m
    ensures m.Valid() && Bound(m.handles, objects)
    ensures ok ==> arg == ObjectOf(objects, word)
    ensures ok <==> Log.Step(Log.Plain(), s, LookupOp(k, word)).State?
    ensures ok ==> Mirrors(m.log, m.handles.Keys, Log.Step(Log.Plain(), s, LookupOp(k, word)))
  {
    hide Table.Stored, Table.Covered, Table.Timed, Table.PayloadsOk, Table.Entries, Filter;
    var value := m.Get(word, k.op.Destroy?);
    ok := value.Some?;
    arg := if ok then value.value else 0;
  }

  /** The handle lookups of the receive statements, one parameter at a time: `args` is what the driver
      is given for each parameter, the object behind the proxy for a handle and the word otherwise. */
  method LookUpAll(m: Table.Manager, params: seq<Param>, words: seq<nat>, ghost objects: map<nat, nat>, ghost s: Log.State<()>)
    returns (ok: bool, args: seq<nat>)
    requires m.Valid() && |words| == |params| && Mirrors(m.log, m.handles.Keys, s) && Bound(m.handles, objects)
    modifies m
    ensures m.Valid() && Bound(m.handles, objects)
    ensures ok ==> Resolved(params, words, objects, args)
    ensures ok <==> After(s, params, words, |params|).State?
    ensures ok ==> Mirrors(m.log, m.handles.Keys, After(s, params, words, |params|))
  {
    hide Table.Stored, Table.Covered, Table.Timed, Table.PayloadsOk, Table.Entries, Log.Step, LookupOp;
    assert After(s, params, words, 0) == s;
    args := [];
    for i := 0 to |params|
      invariant m.Valid() && Mirrors(m.log, m.handles.Keys, After(s, params, words, i)) && Bound(m.handles, objects)
      invariant |args| == i && ResolvedTo(params, words, objects, args, i)
    {
      hide After, Bound, ObjectOf;
      AfterNext(s, params, words, i);
      if params[i].kind.InputHandle? {
        var arg;
        ok, arg := LookUp(m, params[i].kind, words[i], objects, After(s, params, words, i));
        if !ok {
          AfterPanic(s, params, words, i + 1);
          return false, [];
        }
        args := args + [arg];
      } else {
        args := args + [words[i]];
      }
    }
    ok := true;
  }

  ghost predicate ResolvedTo(params: seq<Param>, words: seq<nat>, objects: map<nat, nat>, args: seq<nat>, n: nat)
    requires n <= |params| == |words| && n <= |args|
  {
    forall i :: 0 <= i < n ==> args[i] == if params[i].kind.InputHandle? then ObjectOf(objects, words[i]) else words[i]
  }

  ghost predicate Resolved(params: seq<Param>, words: seq<nat>, objects: map<nat, nat>, args: seq<nat>)
    requires |params| == |words|
  {
    |args| == |params| && ResolvedTo(params, words, objects, args, |params|)
  }

  ghost predicate AllResolve(params: seq<Param>, words: seq<nat>, live: set<nat>)
    requires |words| == |params|
  {
    forall i :: 0 <= i < |params| && params[i].kind.InputHandle? ==> words[i] in live + {0}
  }

  lemma {:induction false} LookupsOnlyLook(s: Log.State<()>, params: seq<Param>, words: seq<nat>, i: nat)
    requires |words| == |params| && i <= |params| && s.State?
    requires forall p :: p in params && p.kind.InputHandle? ==> !p.kind.op.Destroy?
    ensures After(s, params, words, i) == if AllResolve(params[..i], words[..i], s.live) then s else Log.Panicked
  {
    hide Log.Run, Lookups;
    if i == 0 {
      NoLookups(s, params, words);
    } else {
      LookupsOnlyLook(s, params, words, i - 1);
      AfterNext(s, params, words, i - 1);
      hide After;
      assert params[i - 1] in params;
      assert AllResolve(params[..i], words[..i], s.live) <==>
             AllResolve(params[..i - 1], words[..i - 1], s.live) &&
             (params[i - 1].kind.InputHandle? ==> words[i - 1] in s.live + {0}) by {
        ResolveNext(params, words, s.live, i - 1);
      }
    }
  }

  lemma ResolveNext(params: seq<Param>, words: seq<nat>, live: set<nat>, i: nat)
    requires |words| == |params| && i < |params|
    ensures AllResolve(params[..i + 1], words[..i + 1], live) <==>
            AllResolve(params[..i], words[..i], live) && (params[i].kind.InputHandle? ==> words[i] in live + {0})
  {
    var ps, ws := params[..i + 1], words[..i + 1];
    if AllResolve(ps, ws, live) {
      assert forall j :: 0 <= j < i ==> params[..i][j] == ps[j] && words[..i][j] == ws[j];
      assert ps[i] == params[i];
    }
    if AllResolve(params[..i], words[..i], live) {
      assert forall j :: 0 <= j < i ==> ps[j] == params[..i][j] && ws[j] == words[..i][j];
    }
  }

  lemma NoLookups(s: Log.State<()>, params: seq<Param>, words: seq<nat>)
    requires |words| == |params|
    ensures After(s, params, words, 0) == s
  {
  }

  /** A recording call resolves its handles exactly if its uses, and the handle it modifies, are in
      the table. */
  lemma RecordingResolves(h: Hook, words: seq<nat>, i: nat, live: set<nat>)
    requires |words| == |h.params| && Subject(h, i)
    ensures AllResolve(h.params, words, live) <==>
            Log.Resolves(LookedUp(h.params, words), live) && (h.params[i].kind.InputHandle? ==> words[i] in live + {0})
  {
    var ps := h.params;
    assert forall j :: 0 <= j < |ps| && j != i && ps[j].kind.InputHandle? ==> LooksUp(ps[j].kind) && !SetsProxy(ps[j].kind);
    assert forall j :: 0 <= j < |ps| && LooksUp(ps[j].kind) && !SetsProxy(ps[j].kind) ==> words[j] in LookedUp(ps, words);
  }

  /** What the lookups of a recording call leave: the table as it was, or a panic. */
  lemma RecordingLooksUp(h: Hook, c: Config, keys: Keys, values: seq<Value>, s: Log.State<()>) returns (i: nat)
    requires Accepted(h) && Records(h, c) && s.State?
    ensures Subject(h, i)
    ensures var words := Words(h.params, c, values); var e := EntryOf(h, c, keys, values);
            && HandleProxy(h.params, words) == Some(words[i]) && e.proxy == words[i]
            && (e.create ==> !h.params[i].kind.InputHandle?)
            && (!e.create ==> h.params[i].kind.InputHandle?)
            && After(s, h.params, words, |h.params|) ==
               if Log.Resolves(e.uses, s.live) && (e.create || words[i] in s.live + {0}) then s else Log.Panicked
  {
    hide After, Count, Accepted, Words, HandleProxy, LookedUp, OpKey, Log.Resolves, Saved;
    var words := Words(h.params, c, values);
    RecordsBelongToTheirHandle(h, words);
    i := SubjectExists(h);
    SubjectKind(h, i);
    assert forall p :: p in h.params && p.kind.InputHandle? ==> !p.kind.op.Destroy?;
    LookupsOnlyLook(s, h.params, words, |h.params|);
    assert h.params[..|h.params|] == h.params && words[..|h.params|] == words;
    RecordingResolves(h, words, i, s.live);
  }

  lemma SubjectKind(h: Hook, i: nat)
    requires Subject(h, i)
    ensures CreatesHandle(h.params) <==> h.params[i].kind.OutputHandle?
  {
    CountPositive(h.params, (k: Kind) => k.OutputHandle?);
  }

  lemma FreshHandle(log: seq<Log.Entry>, e: Log.Entry)
    ensures var kept := Filter(log, Log.NotOf(e.proxy));
            Log.SameKind(kept, e) && Log.Recorded(kept, e) == kept + [e]
  {
    var kept := Filter(log, Log.NotOf(e.proxy));
    FilterContents(log, Log.NotOf(e.proxy));
    assert forall i :: 0 <= i < |kept| ==> kept[i] in kept;
    if e.key.Some? { FilterAll(kept, Log.NotKey(e.proxy, e.key.value)); }
  }

  /** The tail of a recording stub: `insert` for a created handle, then `insert_args`. */
  method RecordCall(m: Table.Manager, create: bool, proxy: nat, value: nat, key: Option<nat>, args: seq<Byte>,
                    ghost e: Log.Entry, ghost objects: map<nat, nat>, ghost s: Log.State<()>) returns (ok: bool)
    requires m.Valid() && Mirrors(m.log, m.handles.Keys, s) && Log.Resolves(e.uses, s.live) && Bound(m.handles, objects)
    requires e.create == create && e.proxy == proxy && e.key == key && e.args == args
    modifies m
    ensures m.Valid()
    ensures ok <==> Log.Step(Log.Plain(), s, Log.Record(e)).State?
    ensures ok ==> Mirrors(m.log, m.handles.Keys, Log.Step(Log.Plain(), s, Log.Record(e)))
    ensures ok && create ==> proxy in m.handles && m.handles[proxy].value == value
    ensures ok ==> Bound(m.handles, if create then objects[proxy := value] else objects)
  {
    hide Table.Stored, Table.Covered, Table.Timed, Table.PayloadsOk, Table.Entries, Filter, Log.SameKind, Log.Recorded;
    if create {
      m.Insert(proxy, value);
      FreshHandle(s.log, e);
    }
    ok := m.InsertArgs(proxy, key, args, e);
  }

  method KeyOf(h: Hook, keys: Keys, values: seq<Value>) returns (key: Option<nat>)
    ensures key == match OpKey(h.params) case Some(k) => Some(keys.value(k, values)) case None => None
  {
    match OpKey(h.params) {
      case Some(k) => key := Some(keys.value(k, values));
      case None => key := None;
    }
  }

  /** One dispatched request whose arguments have been received: lookups, the driver call (`value`
      is the handle it returns), and recording. `args` is what the driver is given. Not ok is a panic. */
  method Dispatch(m: Table.Manager, h: Hook, c: Config, keys: Keys, values: seq<Value>, value: nat,
                  save: Option<seq<Byte>>, ghost hooks: Hooks, ghost objects: map<nat, nat>, ghost s: Log.State<()>)
    returns (ok: bool, args: seq<nat>)
    requires m.Valid() && Mirrors(m.log, m.handles.Keys, s) && Bound(m.handles, objects)
    requires h.procId in hooks && hooks[h.procId] == h && Accepted(h)
    requires save == if Records(h, c) then Some(Saved(h.procId, values)) else None
    modifies m
    ensures m.Valid()
    ensures ok <==> Log.Run(Log.Plain(), s, OpsOf(hooks, c, keys, Request(h.procId, values))).State?
    ensures ok ==> Mirrors(m.log, m.handles.Keys, Log.Run(Log.Plain(), s, OpsOf(hooks, c, keys, Request(h.procId, values))))
    ensures ok ==> Bound(m.handles, ObjectsAfter(hooks, c, keys, objects, Request(h.procId, values), value))
    ensures ok ==> if c.shadowDesc then Resolved(h.params, Words(h.params, c, values), objects, args) else args == Words(h.params, c, values)
  {
    hide Table.Stored, Table.Covered, Table.Timed, Table.PayloadsOk, Table.Entries, Bound, Resolved;
    hide Words, Lookups, Accepted, HandleProxy, OpKey, LookedUp, Log.Step, Saved, Count;
    var words := Words(h.params, c, values);
    if !c.shadowDesc { return true, words; }
    ok, args := LookUpAll(m, h.params, words, objects, s);
    assert h.params[..|h.params|] == h.params && words[..|words|] == words;
    if save.None? { return; }
    ghost var e := EntryOf(h, c, keys, values);
    RunOne(Log.Plain(), s, Log.Record(e));
    ghost var i := RecordingLooksUp(h, c, keys, values, s);
    UnresolvedPanics(s, e);
    if !ok { return; }
    var key := KeyOf(h, keys, values);
    ok := RecordCall(m, CreatesHandle(h.params), HandleProxy(h.params, words).value, value, key, save.value, e, objects, s);
  }

  /** The driver objects behind the proxies once a call has been served: a created handle's proxy
      stands for the object the driver returned. */
  ghost function ObjectsAfter(hooks: Hooks, c: Config, keys: Keys, objects: map<nat, nat>, r: Request, value: nat): map<nat, nat> {
    if c.shadowDesc && r.id in hooks && CreatesHandle(hooks[r.id].params)
    then objects[EntryOf(hooks[r.id], c, keys, r.values).proxy := value] else objects
  }

  /** The same after a sequence of requests, the k-th answered by `driver(k)`. */
  ghost function ObjectsOf(hooks: Hooks, c: Config, keys: Keys, driver: nat -> nat, objects: map<nat, nat>, rs: seq<Request>): map<nat, nat> {
    if rs == [] then objects
    else
      var last := |rs| - 1;
      ObjectsAfter(hooks, c, keys, ObjectsOf(hooks, c, keys, driver, objects, rs[..last]), rs[last], driver(last))
  }

  lemma UnresolvedPanics(s: Log.State<()>, e: Log.Entry)
    requires s.State?
    ensures !(Log.Resolves(e.uses, s.live) && (e.create || e.proxy in s.live + {0})) ==>
              Log.Step(Log.Plain(), s, Log.Record(e)).Panicked?
  {
  }

  // ---------------------------------------------------------------- the request loop on a log

  lemma {:induction false} AllOpsConcat(hooks: Hooks, c: Config, keys: Keys, a: seq<Request>, b: seq<Request>)
    ensures AllOps(hooks, c, keys, a + b) == AllOps(hooks, c, keys, a) + AllOps(hooks, c, keys, b)
  {
    hide OpsOf;
    if b == [] {
      assert a + b == a;
    } else {
      var b' := b[..|b| - 1];
      AllOpsConcat(hooks, c, keys, a, b');
      assert (a + b)[..|a + b| - 1] == a + b';
    }
  }

  /** The table after the requests dispatched so far. */
  ghost function Served(hooks: Hooks, c: Config, keys: Keys, s: Log.State<()>, rs: seq<Request>): Log.State<()> {
    Log.Run(Log.Plain(), s, AllOps(hooks, c, keys, rs))
  }

  lemma ServedNext(hooks: Hooks, c: Config, keys: Keys, s: Log.State<()>, rs: seq<Request>, r: Request)
    ensures Served(hooks, c, keys, s, rs + [r]) == Log.Run(Log.Plain(), Served(hooks, c, keys, s, rs), OpsOf(hooks, c, keys, r))
  {
    hide OpsOf, Log.Run, AllOps;
    AllOpsAppend(hooks, c, keys, rs, r);
    RunConcat(Log.Plain(), s, AllOps(hooks, c, keys, rs), OpsOf(hooks, c, keys, r));
  }

  lemma ServedPanic(hooks: Hooks, c: Config, keys: Keys, s: Log.State<()>, rs: seq<Request>, more: seq<Request>)
    requires Served(hooks, c, keys, s, rs).Panicked?
    ensures Served(hooks, c, keys, s, rs + more).Panicked?
  {
    hide OpsOf, Log.Run, AllOps;
    AllOpsConcat(hooks, c, keys, rs, more);
    RunConcat(Log.Plain(), s, AllOps(hooks, c, keys, rs), AllOps(hooks, c, keys, more));
    PanicStays(Log.Plain(), AllOps(hooks, c, keys, more));
  }

  /** `rs` are the requests parsed off `bytes` so far, `rest` what is left. */
  ghost predicate ParsedSoFar(hooks: Hooks, c: Config, bytes: seq<Byte>, rs: seq<Request>, rest: seq<Byte>) {
    var more := Parse(hooks, c, rest);
    Parse(hooks, c, bytes) == Parsed(rs + more.requests, more.end)
  }

  /** One turn of parsing: where the next request starts and what follows it. */
  lemma ParseTurn(hooks: Hooks, c: Config, bytes: seq<Byte>, rs: seq<Request>, rest: seq<Byte>, values: seq<Value>, rest': seq<Byte>)
    requires ParsedSoFar(hooks, c, bytes, rs, rest) && |rest| >= 4
    requires var id := FromLe(rest[..4]);
             id != EXIT && id in hooks && DecodeAll(ServerRequest(hooks[id], c), rest[4..]) == Some((values, rest'))
    ensures |rest'| < |rest|
    ensures ParsedSoFar(hooks, c, bytes, rs + [Request(FromLe(rest[..4]), values)], rest')
  {
    hide DecodeAll, ServerRequest, FromLe, EncodeAll, AllWellTyped;
    var r := Request(FromLe(rest[..4]), values);
    DecodeAllOnto(ServerRequest(hooks[r.id], c), rest[4..]);
    var more := Parse(hooks, c, rest').requests;
    assert rs + ([r] + more) == rs + [r] + more;
  }

  /** The parse ends where the loop does. */
  lemma ParseStops(hooks: Hooks, c: Config, bytes: seq<Byte>, rs: seq<Request>, rest: seq<Byte>)
    requires ParsedSoFar(hooks, c, bytes, rs, rest) && Parse(hooks, c, rest).requests == []
    ensures Parse(hooks, c, bytes) == Parsed(rs, Parse(hooks, c, rest).end)
  {
    assert rs + [] == rs;
  }

  lemma ParseEnds(hooks: Hooks, c: Config, s: seq<Byte>)
    ensures |s| < 4 ==> Parse(hooks, c, s) == Parsed([], Eof)
    ensures |s| >= 4 && FromLe(s[..4]) == EXIT ==> Parse(hooks, c, s) == Parsed([], Exited)
    ensures |s| >= 4 && FromLe(s[..4]) != EXIT && FromLe(s[..4]) !in hooks ==> Parse(hooks, c, s) == Parsed([], Panicked)
    ensures |s| >= 4 && FromLe(s[..4]) != EXIT && FromLe(s[..4]) in hooks ==>
              var d := DecodeAll(ServerRequest(hooks[FromLe(s[..4])], c), s[4..]);
              d.None? ==> Parse(hooks, c, s) == Parsed([], Panicked)
  {
    hide DecodeAll, ServerRequest, FromLe;
  }

  /** The body of a dispatched stub on the byte vector: receive, save, look up, record. */
  method Handle(m: Table.Manager, channel: RestoreVec, h: Hook, c: Config, keys: Keys, value: nat,
                ghost hooks: Hooks, ghost objects: map<nat, nat>, ghost s: Log.State<()>) returns (ok: bool, ghost values: seq<Value>)
    requires m.Valid() && Mirrors(m.log, m.handles.Keys, s) && channel.Valid() && Bound(m.handles, objects)
    requires h.procId in hooks && hooks[h.procId] == h && Accepted(h)
    modifies m, channel
    ensures m.Valid() && channel.Valid()
    ensures DecodeAll(ServerRequest(h, c), old(channel.Rest())).None? ==> !ok
    ensures DecodeAll(ServerRequest(h, c), old(channel.Rest())).Some? ==>
              && DecodeAll(ServerRequest(h, c), old(channel.Rest())) == Some((values, channel.Rest()))
              && var r := Log.Run(Log.Plain(), s, OpsOf(hooks, c, keys, Request(h.procId, values)));
                 (ok <==> r.State?) && (ok ==> Mirrors(m.log, m.handles.Keys, r))
    ensures ok ==> Bound(m.handles, ObjectsAfter(hooks, c, keys, objects, Request(h.procId, values), value))
  {
    hide Table.Stored, Table.Covered, Table.Timed, Table.PayloadsOk, Table.Entries, Bound, ObjectsAfter, Resolved;
    hide DecodeAll, OpsOf, Accepted, ServerRequest, EncodeAll, Log.Run, ToLe;
    var session := new RecvSession(channel, Records(h, c), h.procId);
    var r := session.RecvAll(ServerRequest(h, c));
    if r.None? { return false, []; }
    values := r.value;
    var args;
    ok, args := Dispatch(m, h, c, keys, r.value, value, session.save, hooks, objects, s);
  }

  /** The worker's request loop while the byte vector stands in for the request ring. It dispatches
      what the vector parses into and stops with the parse, unless a dispatch panics first; every
      proxy then stands for the object its own creation returned. */
  method ReplayLog(m: Table.Manager, bytes: seq<Byte>, hooks: Hooks, c: Config, keys: Keys, driver: nat -> nat,
                   ghost objects: map<nat, nat>, ghost s: Log.State<()>) returns (end: End)
    requires m.Valid() && Mirrors(m.log, m.handles.Keys, s) && HooksOk(hooks) && Bound(m.handles, objects)
    modifies m
    ensures m.Valid()
    ensures var p := Parse(hooks, c, bytes); var r := Served(hooks, c, keys, s, p.requests);
            && end == (if r.Panicked? then Panicked else p.end)
            && (!end.Panicked? ==> Mirrors(m.log, m.handles.Keys, r) && Bound(m.handles, ObjectsOf(hooks, c, keys, driver, objects, p.requests)))
  {
    hide Table.Stored, Table.Covered, Table.Timed, Table.PayloadsOk, Table.Entries, Bound, ObjectsAfter;
    hide Parse, DecodeAll, OpsOf, Accepted, ServerRequest, Log.Run, FromLe;
    var channel := new RestoreVec(bytes);
    ghost var rs := [];
    var calls := 0;
    StartServing(hooks, c, keys, s, bytes);
    while true
      invariant m.Valid() && channel.Valid() && fresh(channel)
      invariant Mirrors(m.log, m.handles.Keys, Served(hooks, c, keys, s, rs))
      invariant calls == |rs| && Bound(m.handles, ObjectsOf(hooks, c, keys, driver, objects, rs))
      invariant ParsedSoFar(hooks, c, bytes, rs, channel.Rest())
      decreases |channel.Rest()|
    {
      hide Served, ParsedSoFar, Mirrors, ObjectsOf;
      ghost var rest := channel.Rest();
      ParseEnds(hooks, c, rest);
      var word := channel.GetBytes(4);
      if word.None? {
        ParseStops(hooks, c, bytes, rs, rest);
        return Eof;
      }
      assert rest[..4] == word.value && rest[4..] == channel.Rest();
      var id := FromLe(word.value);
      if id == EXIT {
        ParseStops(hooks, c, bytes, rs, rest);
        return Exited;
      }
      if id !in hooks {
        ParseStops(hooks, c, bytes, rs, rest);
        return Panicked;
      }
      ghost var values: seq<Value>;
      var ok;
      ok, values := Handle(m, channel, hooks[id], c, keys, driver(calls), hooks,
                          ObjectsOf(hooks, c, keys, driver, objects, rs), Served(hooks, c, keys, s, rs));
      if !ok && DecodeAll(ServerRequest(hooks[id], c), rest[4..]).None? {
        ParseStops(hooks, c, bytes, rs, rest);
      } else {
        ParseTurn(hooks, c, bytes, rs, rest, values, channel.Rest());
        ServedNext(hooks, c, keys, s, rs, Request(id, values));
        ObjectsNext(hooks, c, keys, driver, objects, rs, Request(id, values));
        rs := rs + [Request(id, values)];
        if !ok { PanicEnds(hooks, c, keys, s, bytes, rs, channel.Rest()); }
      }
      if !ok { return Panicked; }
      calls := calls + 1;
    }
  }

  lemma ObjectsNext(hooks: Hooks, c: Config, keys: Keys, driver: nat -> nat, objects: map<nat, nat>, rs: seq<Request>, r: Request)
    ensures ObjectsOf(hooks, c, keys, driver, objects, rs + [r])
         == ObjectsAfter(hooks, c, keys, ObjectsOf(hooks, c, keys, driver, objects, rs), r, driver(|rs|))
  {
    hide ObjectsAfter;
    assert (rs + [r])[..|rs|] == rs;
  }

  lemma StartServing(hooks: Hooks, c: Config, keys: Keys, s: Log.State<()>, bytes: seq<Byte>)
    ensures Served(hooks, c, keys, s, []) == s && ParsedSoFar(hooks, c, bytes, [], bytes)
  {
    hide Parse;
    assert [] + Parse(hooks, c, bytes).requests == Parse(hooks, c, bytes).requests;
  }

  lemma PanicEnds(hooks: Hooks, c: Config, keys: Keys, s: Log.State<()>, bytes: seq<Byte>, rs: seq<Request>, rest: seq<Byte>)
    requires ParsedSoFar(hooks, c, bytes, rs, rest) && Served(hooks, c, keys, s, rs).Panicked?
    ensures Served(hooks, c, keys, s, Parse(hooks, c, bytes).requests).Panicked?
  {
    hide Parse, Served;
    ServedPanic(hooks, c, keys, s, rs, Parse(hooks, c, rest).requests);
  }

  /** Checkpoint then restore, on the table alone: the bytes serialized after serving `stream` are
      replayed into a fresh table, and that table is serialized again. The result is the same bytes
      exactly when the log is replayable (uses live, creations kept); otherwise the replay panics. */
  method RestoreTable(bytes: seq<Byte>, hooks: Hooks, c: Config, keys: Keys, driver: nat -> nat, ghost stream: seq<Byte>)
    returns (end: End, again: seq<Byte>)
    requires HooksOk(hooks) && Log.LawfulHistory(Log.Plain(), AllOps(hooks, c, keys, Parse(hooks, c, stream).requests))
    requires bytes == Table.LogBytes(Served(hooks, c, keys, Log.Start(), Parse(hooks, c, stream).requests).log)
    ensures var s := Served(hooks, c, keys, Log.Start(), Parse(hooks, c, stream).requests);
            end == if Log.Replayable(s.log, s.live) then Eof else Panicked
    ensures end == Eof ==> again == bytes
  {
    ghost var start: Log.State<()> := Log.Start();
    var m := new Table.Manager();
    assert Mirrors(m.log, m.handles.Keys, start) && Bound(m.handles, map[]);
    hide *;
    end := ReplayLog(m, bytes, hooks, c, keys, driver, map[], start);
    RestoredTable(hooks, c, keys, stream, bytes);
    again := [];
    if end == Eof {
      again := m.Serialize();
      SameLog(m.log, m.handles.Keys, Served(hooks, c, keys, start, Parse(hooks, c, bytes).requests));
    }
  }

  lemma SameLog(log: seq<Table.Stamped>, keys: set<nat>, s: Log.State<()>)
    requires Mirrors(log, keys, s)
    ensures s.State? && s.log == Table.Entries(log)
  {
  }

  lemma RestoredTable(hooks: Hooks, c: Config, keys: Keys, stream: seq<Byte>, bytes: seq<Byte>)
    requires HooksOk(hooks) && Log.LawfulHistory(Log.Plain(), AllOps(hooks, c, keys, Parse(hooks, c, stream).requests))
    requires bytes == Table.LogBytes(Served(hooks, c, keys, Log.Start(), Parse(hooks, c, stream).requests).log)
    ensures var s := Served(hooks, c, keys, Log.Start(), Parse(hooks, c, stream).requests);
            var p := Parse(hooks, c, bytes);
            var r := Served(hooks, c, keys, Log.Start(), p.requests);
            && p.end == Eof && (r.State? <==> Log.Replayable(s.log, s.live))
            && (r.State? ==> Table.LogBytes(r.log) == bytes)
  {
    hide Parse, AllOps, Log.Run, Table.LogBytes, Log.Replayable, HooksOk, Log.LawfulHistory;
    Log.PlainIsSound();
    SerializedLogRestores(Log.Plain(), hooks, c, keys, stream);
  }
}
