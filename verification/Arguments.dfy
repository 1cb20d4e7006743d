/** From the caller's arguments to the worker's handle table: the number a client passes for a parameter
    is the number the server stub looks up, records or drops for that parameter. */
module Arguments {
  import opened Bytes
  import opened Options
  import opened Wire
  import opened Stubs
  import opened Replay
  import Log = HandleLog

  // ---------------------------------------------------------------- fields in parameter order

  /** The fields of a parameter list are those of its parts, in order. */
  lemma {:induction false} FieldsConcat(a: seq<Param>, b: seq<Param>, of: Param -> seq<FieldType>)
    ensures Fields(a + b, of) == Fields(a, of) + Fields(b, of)
  {
    if b == [] {
      assert a + b == a;
    } else {
      var front := b[..|b| - 1];
      FieldsConcat(a, front, of);
      assert (a + b)[..|a + b| - 1] == a + front;
    }
  }

  lemma FieldsOfOne(p: Param, of: Param -> seq<FieldType>)
    ensures Fields([p], of) == of(p)
  {
    assert Fields([p][..0], of) == [];
  }

  /** The fields of parameter `i` come after those of the parameters before it. */
  lemma FieldsAt(params: seq<Param>, of: Param -> seq<FieldType>, i: nat)
    requires i < |params|
    ensures Fields(params, of) == Fields(params[..i], of) + of(params[i]) + Fields(params[i + 1..], of)
  {
    hide Fields;
    var before, from, after := params[..i], params[i..], params[i + 1..];
    assert params == before + from && from == [params[i]] + after;
    FieldsConcat(before, from, of);
    FieldsConcat([params[i]], after, of);
    FieldsOfOne(params[i], of);
  }

  function Received(c: Config): Param -> seq<FieldType> { (p: Param) => ServerReceives(p, c) }

  // ---------------------------------------------------------------- the word of a parameter

  /** The word of a parameter that is received is the number in the value at the position counted by
      the fields of the parameters before it. */
  lemma {:induction false} WordAt(params: seq<Param>, c: Config, values: seq<Value>, i: nat)
    requires i < |params| && |values| >= |Fields(params, Received(c))|
    ensures var at := |Fields(params[..i], Received(c))|;
            if ServerReceives(params[i], c) == [] then Words(params, c, values)[i] == 0
            else at < |values| && Words(params, c, values)[i] == FromLe(values[at].bytes)
  {
    hide Words, Fields, ServerReceives, FromLe;
    AtMostOneField(params[0], c);
    FieldsFront(params, c);
    WordsFront(params, c, values);
    if i == 0 {
      NoFields(c);
    } else {
      var n := |ServerReceives(params[0], c)|;
      WordAt(params[1..], c, values[n..], i - 1);
      FieldsFront(params[..i], c);
      assert params[..i][1..] == params[1..][..i - 1];
    }
  }

  lemma WordsFront(params: seq<Param>, c: Config, values: seq<Value>)
    requires params != [] && |values| >= |ServerReceives(params[0], c)|
    ensures var n, words := |ServerReceives(params[0], c)|, Words(params, c, values);
            words == [if n == 0 then 0 else FromLe(values[0].bytes)] + Words(params[1..], c, values[n..])
  {
    hide ServerReceives, FromLe;
    AtMostOneField(params[0], c);
    assert values[0..] == values;
  }

  lemma FieldsFront(params: seq<Param>, c: Config)
    requires params != []
    ensures Fields(params, Received(c)) == ServerReceives(params[0], c) + Fields(params[1..], Received(c))
  {
    hide Fields;
    assert params == [params[0]] + params[1..];
    FieldsConcat([params[0]], params[1..], Received(c));
    FieldsOfOne(params[0], Received(c));
  }

  lemma NoFields(c: Config)
    ensures forall params: seq<Param> :: Fields(params[..0], Received(c)) == []
  {
  }

  lemma AtMostOneField(p: Param, c: Config)
    ensures |ServerReceives(p, c)| <= 1 && ClientSends(p, c) == ServerReceives(p, c)
  {
  }

  // ---------------------------------------------------------------- what the caller passes

  /** One value for each parameter, of the type of the field that would carry it. */
  ghost predicate Given(params: seq<Param>, c: Config, given: seq<Value>) {
    && |given| == |params|
    && forall i :: 0 <= i < |params| && ClientSends(params[i], c) != [] ==> WellTyped(ClientSends(params[i], c)[0], given[i])
  }

  /** What the client's send statements put on the ring, parameter by parameter. */
  function Passed(params: seq<Param>, c: Config, given: seq<Value>): seq<Value>
    requires |given| == |params|
  {
    if params == [] then []
    else (if ClientSends(params[0], c) == [] then [] else [given[0]]) + Passed(params[1..], c, given[1..])
  }

  lemma {:induction false} PassedIsRequest(params: seq<Param>, c: Config, given: seq<Value>)
    requires Given(params, c, given)
    ensures AllWellTyped(Fields(params, Received(c)), Passed(params, c, given))
  {
    hide ServerReceives, ClientSends, WellTyped;
    if params != [] {
      var p, rest := params[0], params[1..];
      PassedIsRequest(rest, c, given[1..]);
      hide Fields;
      AtMostOneField(p, c);
      FieldsFront(params, c);
    }
  }

  /** The server's words are the numbers passed. */
  lemma {:induction false} PassedArrives(params: seq<Param>, c: Config, given: seq<Value>, extra: seq<Value>)
    requires |given| == |params|
    ensures forall i :: 0 <= i < |params| ==>
              Words(params, c, Passed(params, c, given) + extra)[i]
              == if ClientSends(params[i], c) == [] then 0 else FromLe(given[i].bytes)
  {
    hide ServerReceives, ClientSends, FromLe;
    if params != [] {
      var rest, more := params[1..], Passed(params[1..], c, given[1..]);
      AtMostOneField(params[0], c);
      PassedArrives(rest, c, given[1..], extra);
      if ClientSends(params[0], c) == [] {
        assert Passed(params, c, given) + extra == more + extra;
      } else {
        assert Passed(params, c, given) + extra == [given[0]] + (more + extra);
      }
    }
  }

  /** The same for the values of any hook's own parameters, with its extra fields after them. */
  lemma RequestIsPassed(h: Hook, c: Config, given: seq<Value>, extra: seq<Value>)
    requires Given(h.params, c, given) && AllWellTyped(h.injections.clientExtraSend, extra)
    ensures AllWellTyped(ClientRequest(h, c), Passed(h.params, c, given) + extra)
  {
    hide ServerReceives, ClientSends, WellTyped;
    PassedIsRequest(h.params, c, given);
    forall p | p in h.params ensures ClientSends(p, c) == ServerReceives(p, c) { AtMostOneField(p, c); }
    FieldsAgree(h.params, (p: Param) => ClientSends(p, c), Received(c));
  }

  // ---------------------------------------------------------------- handles

  /** The entry of a recorded call, from the numbers the caller passed: the handle it belongs to, the
      key of its operation on that handle, and the handles it uses. */
  ghost predicate HandlesAsPassed(h: Hook, given: seq<Value>, keys: Keys, values: seq<Value>, e: Log.Entry)
    requires |given| == |h.params|
  {
    && (forall i: nat :: Subject(h, i) ==>
          && e.proxy == FromLe(given[i].bytes)
          && (e.create <==> h.params[i].kind.OutputHandle?)
          && e.key == match h.params[i].kind.key case Some(k) => Some(keys.value(k, values)) case None => None)
    && (forall n :: n in e.uses <==>
          exists i :: 0 <= i < |h.params| && h.params[i].kind.InputHandle? && h.params[i].kind.op.Use? && FromLe(given[i].bytes) == n)
  }

  lemma HandlesAreSent(p: Param, c: Config)
    requires c.shadowDesc && (p.kind.InputHandle? || p.kind.OutputHandle?)
    ensures ClientSends(p, c) != []
  {
  }

  lemma UsesOnly(p: Param)
    requires Fits(p)
    ensures LooksUp(p.kind) && !SetsProxy(p.kind) <==> p.kind.InputHandle? && p.kind.op.Use?
  {
  }

  /** A recorded call: the entry's proxy is the number passed for the handle created or modified, its
      uses are the numbers passed for the handles it uses, and its bytes are the request itself. */
  lemma RecordIsAsPassed(h: Hook, c: Config, keys: Keys, given: seq<Value>, extra: seq<Value>)
    requires Accepted(h) && Records(h, c) && Given(h.params, c, given)
    ensures var values := Passed(h.params, c, given) + extra;
            var e := EntryOf(h, c, keys, values);
            && HandlesAsPassed(h, given, keys, values, e)
            && (exists i: nat :: Subject(h, i))
            && (forall reply, room :: e.args == RequestStream([Call(h, values, reply, room)]))
  {
    hide ClientSends, ServerReceives, FromLe, ToLe, OpKey, HandleProxy, Words, Given, Accepted, WellTyped, EncodeAll, CreatesHandle, ModifiesHandle;
    assert |given| == |h.params| by { GivenLength(h.params, c, given); }
    var values := Passed(h.params, c, given) + extra;
    var words := Words(h.params, c, values);
    var e := EntryOf(h, c, keys, values);
    PassedArrives(h.params, c, given, extra);
    RecordsBelongToTheirHandle(h, words);
    forall i: nat | Subject(h, i)
      ensures e.proxy == FromLe(given[i].bytes) && (e.create <==> h.params[i].kind.OutputHandle?)
    {
      HandlesAreSent(h.params[i], c);
      SubjectIsCreated(h, i);
    }
    AcceptedFits(h);
    forall i | 0 <= i < |h.params|
      ensures LooksUp(h.params[i].kind) && !SetsProxy(h.params[i].kind) <==> h.params[i].kind.InputHandle? && h.params[i].kind.op.Use?
      ensures h.params[i].kind.InputHandle? ==> words[i] == FromLe(given[i].bytes)
    {
      UsesOnly(h.params[i]);
      if h.params[i].kind.InputHandle? { HandlesAreSent(h.params[i], c); }
    }
    forall reply, room ensures e.args == RequestStream([Call(h, values, reply, room)]) {
      var calls := [Call(h, values, reply, room)];
      assert RequestStream(calls[1..]) == [];
    }
  }

  lemma SubjectIsCreated(h: Hook, i: nat)
    requires Subject(h, i)
    ensures CreatesHandle(h.params) <==> h.params[i].kind.OutputHandle?
  {
    CountPositive(h.params, (k: Kind) => k.OutputHandle?);
  }

  lemma GivenLength(params: seq<Param>, c: Config, given: seq<Value>)
    requires Given(params, c, given)
    ensures |given| == |params|
  {
  }

  lemma AcceptedFits(h: Hook)
    requires Accepted(h)
    ensures forall i :: 0 <= i < |h.params| ==> Fits(h.params[i])
  {
    hide Fits, ParseParams, CheckAsync, Count;
    var args :| NewHook(h.procId, h.isAsync, args, h.ret, h.injections) == Some(h);
    ParsedFits(args);
  }

  // ---------------------------------------------------------------- a call that records nothing

  /** The lookups of the handle parameters, in order, in the numbers passed. */
  function PassedLookups(params: seq<Param>, given: seq<Value>): seq<Log.Op>
    requires |given| == |params|
  {
    if params == [] then []
    else
      (match params[0].kind
       case InputHandle(Destroy, _) => [Log.Destroy(FromLe(given[0].bytes))]
       case InputHandle(_, _) => [Log.Use({FromLe(given[0].bytes)})]
       case _ => [])
      + PassedLookups(params[1..], given[1..])
  }

  lemma {:induction false} LookupsFront(params: seq<Param>, words: seq<nat>)
    requires |words| == |params| && params != []
    ensures Lookups(params, words) == Lookups([params[0]], [words[0]]) + Lookups(params[1..], words[1..])
  {
    var last := |params| - 1;
    if last > 0 {
      LookupsFront(params[..last], words[..last]);
      assert params[..last][1..] == params[1..][..last - 1] && words[..last][1..] == words[1..][..last - 1];
    } else {
      assert params == [params[0]] && words == [words[0]];
    }
  }

  lemma {:induction false} LookupsArePassed(params: seq<Param>, words: seq<nat>, given: seq<Value>)
    requires |words| == |params| == |given|
    requires forall i :: 0 <= i < |params| && params[i].kind.InputHandle? ==> words[i] == FromLe(given[i].bytes)
    ensures Lookups(params, words) == PassedLookups(params, given)
  {
    if params != [] {
      LookupsFront(params, words);
      LookupsArePassed(params[1..], words[1..], given[1..]);
      var front: seq<Param>, none: seq<nat> := [params[0]][..0], [words[0]][..0];
      assert Lookups(front, none) == [];
    }
  }

  // ---------------------------------------------------------------- whole streams

  /** What a call does to the worker's handle table, from the numbers its caller passed. */
  ghost predicate OpsAsPassed(h: Hook, c: Config, given: seq<Value>, keys: Keys, values: seq<Value>, ops: seq<Log.Op>)
    requires |given| == |h.params|
  {
    if !c.shadowDesc then ops == []
    else if Records(h, c) then |ops| == 1 && ops[0].Record? && HandlesAsPassed(h, given, keys, values, ops[0].e)
    else ops == PassedLookups(h.params, given)
  }

  lemma OpsArePassed(hooks: Hooks, c: Config, keys: Keys, h: Hook, given: seq<Value>, extra: seq<Value>)
    requires h.procId in hooks && hooks[h.procId] == h && Accepted(h) && Given(h.params, c, given)
    ensures var values := Passed(h.params, c, given) + extra;
            OpsAsPassed(h, c, given, keys, values, OpsOf(hooks, c, keys, Request(h.procId, values)))
  {
    hide ClientSends, FromLe, Words, Accepted, HandlesAsPassed, EntryOf, Records, Lookups, PassedLookups;
    var values := Passed(h.params, c, given) + extra;
    if c.shadowDesc {
      if Records(h, c) {
        RecordIsAsPassed(h, c, keys, given, extra);
      } else {
        PassedArrives(h.params, c, given, extra);
        var words := Words(h.params, c, values);
        forall i | 0 <= i < |h.params| && h.params[i].kind.InputHandle? ensures words[i] == FromLe(given[i].bytes) {
          HandlesAreSent(h.params[i], c);
        }
        LookupsArePassed(h.params, words, given);
      }
    }
  }

  ghost function Issued(calls: seq<Call>): seq<Request> {
    if calls == [] then [] else [Request(calls[0].h.procId, calls[0].args)] + Issued(calls[1..])
  }

  /** The request loop reads a stream of calls as those calls, to its end. */
  lemma {:induction false} StreamParses(hooks: Hooks, c: Config, calls: seq<Call>)
    requires HooksOk(hooks) && forall i :: 0 <= i < |calls| ==> WellFormed(hooks, c, calls[i])
    ensures Parse(hooks, c, RequestStream(calls)) == Parsed(Issued(calls), Eof)
  {
    hide HooksOk, EncodeAll, ToLe;
    if calls != [] {
      StreamParses(hooks, c, calls[1..]);
      hide Parse;
      var r := Request(calls[0].h.procId, calls[0].args);
      assert WellTypedRequest(hooks, c, r) by { IssuedIsWellTyped(hooks, c, calls[0]); }
      ParseOne(hooks, c, r, RequestStream(calls[1..]));
    }
  }

  lemma IssuedIsWellTyped(hooks: Hooks, c: Config, call: Call)
    requires WellFormed(hooks, c, call)
    ensures WellTypedRequest(hooks, c, Request(call.h.procId, call.args))
  {
    hide ClientRequest, ServerRequest, ServerReply, AllWellTyped;
    StubsAreDual(call.h, c);
  }

  lemma {:induction false} IssuedAt(calls: seq<Call>, k: nat)
    requires k < |calls|
    ensures |Issued(calls)| == |calls| && Issued(calls)[k] == Request(calls[k].h.procId, calls[k].args)
  {
    if |calls| > 1 { IssuedAt(calls[1..], if k > 0 then k - 1 else 0); }
  }

  /** Main result. Over any stream of calls, the k-th request the worker serves does to its handle
      table what the k-th call's caller asked for, in the very numbers the caller passed. */
  lemma HandlesArrive(hooks: Hooks, c: Config, keys: Keys, calls: seq<Call>, k: nat, given: seq<Value>, extra: seq<Value>)
    requires HooksOk(hooks) && forall i :: 0 <= i < |calls| ==> WellFormed(hooks, c, calls[i])
    requires k < |calls| && Given(calls[k].h.params, c, given)
    requires calls[k].args == Passed(calls[k].h.params, c, given) + extra
    ensures var p := Parse(hooks, c, RequestStream(calls));
            && p.end == Eof && |p.requests| == |calls|
            && OpsAsPassed(calls[k].h, c, given, keys, calls[k].args, OpsOf(hooks, c, keys, p.requests[k]))
  {
    hide Given, Passed, OpsAsPassed, OpsOf, Parse, Accepted, RequestStream;
    StreamParses(hooks, c, calls);
    IssuedAt(calls, k);
    assert WellFormed(hooks, c, calls[k]);
    OpsArePassed(hooks, c, keys, calls[k].h, given, extra);
  }
}
