/** The stub generator: how a hook description is parsed and accepted, and the two stubs generated from
    it, the client's and the server's, as the field lists they send and receive. */
module Stubs {
  import opened Bytes
  import opened Options
  import opened Wire

  // ---------------------------------------------------------------- hook descriptions

  /** A parameter type as the generator sees it; `status` marks the error codes of the libraries. */
  datatype Ty = Ptr(isConst: bool, elem: Ty) | HandleTy(keyed: bool) | Void | Char | Plain(size: nat, status: bool)

  function Size(t: Ty): nat {
    match t
    case Ptr(_, _) => WORD
    case HandleTy(_) => WORD
    case Void => 0
    case Char => 1
    case Plain(size, _) => size
  }

  datatype HandleOp = Create | Use | Modify | Destroy | UnknownOp
  datatype HostMode = NoMode | Input | Output
  datatype Attr =
    | NoAttr | SkipAttr | ValueAttr
    | HandleAttr(op: HandleOp, key: Option<nat>)           // key: the op_key expression, if given
    | HostAttr(mode: HostMode, hasLen: bool, hasCap: bool)
    | DeviceAttr | OtherAttr

  datatype Kind =
    | InputValue
    | InputHandle(op: HandleOp, key: Option<nat>)
    | InputSinglePtr | InputArrayPtr(isVoid: bool) | InputCStr
    | OutputHandle(key: Option<nat>)
    | OutputSinglePtr | OutputArrayPtr(isVoid: bool, hasCap: bool)
    | DeviceInputPtr | DeviceOutputPtr
    | Skip | Const

  datatype Param = Param(ty: Ty, kind: Kind)

  /** Statements a hook injects, reduced to the fields they move and whether they exist. */
  datatype Injections = Injections(
    clientExtraSend: seq<FieldType>, serverExtraRecv: seq<FieldType>,
    serverInitialSend: seq<FieldType>, clientInitialRecv: seq<FieldType>,
    clientAfterRecv: bool, serverAfterSend: bool)

  datatype Hook = Hook(procId: nat, isAsync: Option<bool>, params: seq<Param>, ret: Option<Ty>, injections: Injections)

  // ---------------------------------------------------------------- parsing a parameter

  /** `validated_op_key`: a key is required exactly when a keyed handle is created or modified. */
  function ValidatedKey(op: HandleOp, key: Option<nat>, handle: Ty): Option<Option<nat>> {
    var required := (op.Create? || op.Modify?) && handle.HandleTy? && handle.keyed;
    if key.Some? == required then Some(key) else None
  }

  function ParseKind(attr: Attr, ty: Ty): Option<Kind> {
    if attr.SkipAttr? then Some(Skip)
    else if attr.ValueAttr? then Some(Const)
    else match ty
      case Ptr(isConst, elem) => ParsePtr(attr, isConst, elem)
      case HandleTy(_) =>
        if attr.HandleAttr? && (attr.op.Use? || attr.op.Modify? || attr.op.Destroy?) then
          (match ValidatedKey(attr.op, attr.key, ty)
           case Some(key) => Some(InputHandle(attr.op, key))
           case None => None)
        else None
      case _ => if attr.NoAttr? then Some(InputValue) else None
  }

  function ParsePtr(attr: Attr, isConst: bool, elem: Ty): Option<Kind> {
    if elem.HandleTy? then
      if !isConst && attr.HandleAttr? && attr.op.Create? then
        (match ValidatedKey(Create, attr.key, elem)
         case Some(key) => Some(OutputHandle(key))
         case None => None)
      else None
    else if !attr.NoAttr? then ParsePtrAttr(attr, isConst, elem)
    else if isConst && elem.Char? then Some(InputCStr)
    else if isConst || elem.Void? then None
    else Some(OutputSinglePtr)
  }

  function ParsePtrAttr(attr: Attr, isConst: bool, elem: Ty): Option<Kind> {
    match attr
    case HostAttr(mode, hasLen, hasCap) =>
      if elem.Void? && !hasLen then None
      else if (isConst && mode.NoMode?) || (!isConst && mode.Input?) then
        if hasCap then None else Some(if hasLen then InputArrayPtr(elem.Void?) else InputSinglePtr)
      else if !isConst && mode.Output? then
        if hasLen then Some(OutputArrayPtr(elem.Void?, hasCap))
        else if hasCap then None else Some(OutputSinglePtr)
      else None
    case DeviceAttr => Some(DeviceInputPtr)
    case _ => None
  }

  function ParseParams(args: seq<(Attr, Ty)>): Option<seq<Param>> {
    if args == [] then Some([])
    else
      var (attr, ty) := args[|args| - 1];
      match (ParseParams(args[..|args| - 1]), ParseKind(attr, ty))
      case (Some(front), Some(kind)) => Some(front + [Param(ty, kind)])
      case _ => None
  }

  // ---------------------------------------------------------------- accepting a hook

  predicate IsHostOutput(k: Kind) { k.OutputHandle? || k.OutputSinglePtr? || k.OutputArrayPtr? }

  predicate ChangesHandle(k: Kind) { (k.InputHandle? && (k.op.Modify? || k.op.Destroy?)) || k.OutputHandle? }

  predicate SetsProxy(k: Kind) { (k.InputHandle? && k.op.Modify?) || k.OutputHandle? }

  function Count(params: seq<Param>, test: Kind -> bool): nat {
    if params == [] then 0
    else Count(params[..|params| - 1], test) + if test(params[|params| - 1].kind) then 1 else 0
  }

  predicate HasAfter(i: Injections) { i.clientAfterRecv || i.serverInitialSend != [] || i.serverAfterSend }

  predicate CreatesHandle(params: seq<Param>) { Count(params, (k: Kind) => k.OutputHandle?) > 0 }

  predicate ModifiesHandle(params: seq<Param>) { Count(params, (k: Kind) => k.InputHandle? && k.op.Modify?) > 0 }

  predicate CheckAsync(params: seq<Param>, ret: Option<Ty>, i: Injections) {
    && !HasAfter(i)
    && Count(params, IsHostOutput) == 0
    && (ret.Some? ==> ret.value.Plain? && ret.value.status)
  }

  /** `HookFn::new`: None where the macro reports an error. */
  function NewHook(procId: nat, isAsync: Option<bool>, args: seq<(Attr, Ty)>, ret: Option<Ty>, i: Injections): Option<Hook> {
    match ParseParams(args)
    case None => None
    case Some(params) =>
      if isAsync == Some(true) && !CheckAsync(params, ret, i) then None
      else if Count(params, ChangesHandle) > 1 then None
      else if CreatesHandle(params) && (Count(params, IsHostOutput) > 1 || HasAfter(i)) then None
      else Some(Hook(procId, isAsync, params, ret, i))
  }

  ghost predicate Accepted(h: Hook) {
    exists args :: NewHook(h.procId, h.isAsync, args, h.ret, h.injections) == Some(h)
  }

  // ---------------------------------------------------------------- the generated stubs

  /** The two options client and server share. */
  datatype Config = Config(shadowDesc: bool, asyncApi: bool)

  function ElemSize(t: Ty, isVoid: bool): nat {
    if isVoid then 1 else Size(Pointee(t))
  }

  function Pointee(t: Ty): Ty { if t.Ptr? then t.elem else t }

  /** What the client stub sends for a parameter. */
  function ClientSends(p: Param, c: Config): seq<FieldType> {
    match p.kind
    case InputValue => [Fixed(Size(p.ty))]
    case InputHandle(_, _) => [Fixed(Size(p.ty))]
    case DeviceInputPtr => [Fixed(Size(p.ty))]
    case DeviceOutputPtr => [Fixed(Size(p.ty))]
    case InputSinglePtr => [Fixed(Size(Pointee(p.ty)))]
    case InputArrayPtr(isVoid) => [Slice(ElemSize(p.ty, isVoid))]
    case InputCStr => [CStr]
    case OutputHandle(_) => if c.shadowDesc then [Fixed(WORD)] else []   // send_handle: a fresh proxy
    case OutputSinglePtr => []
    case OutputArrayPtr(_, _) => []
    case Skip => []
    case Const => []
  }

  /** What the server stub receives for a parameter. */
  function ServerReceives(p: Param, c: Config): seq<FieldType> {
    match p.kind
    case InputValue => [Fixed(Size(p.ty))]
    case InputHandle(_, _) => [Fixed(Size(p.ty))]
    case InputSinglePtr => [Fixed(Size(Pointee(p.ty)))]
    case InputArrayPtr(isVoid) => [Slice(if isVoid then 1 else Size(Pointee(p.ty)))]
    case InputCStr => [CStr]
    case OutputHandle(_) => if c.shadowDesc then [Fixed(WORD)] else []
    case OutputSinglePtr => []
    case OutputArrayPtr(_, _) => []
    case DeviceInputPtr => [Fixed(Size(p.ty))]
    case DeviceOutputPtr => [Fixed(Size(p.ty))]
    case Skip => []
    case Const => []
  }

  /** What the server stub sends back, and the client stub receives, for a host output. */
  function ServerReplies(p: Param): seq<FieldType> {
    match p.kind
    case OutputHandle(_) => [Fixed(Size(Pointee(p.ty)))]
    case OutputSinglePtr => [Fixed(Size(Pointee(p.ty)))]
    case OutputArrayPtr(isVoid, _) => [Slice(if isVoid then 1 else Size(Pointee(p.ty)))]
    case _ => []
  }

  function ClientReceives(p: Param): seq<FieldType> {
    match p.kind
    case OutputHandle(_) => [Fixed(Size(Pointee(p.ty)))]
    case OutputSinglePtr => [Fixed(Size(Pointee(p.ty)))]
    case OutputArrayPtr(isVoid, _) => [Slice(ElemSize(p.ty, isVoid))]
    case _ => []
  }

  function Fields(params: seq<Param>, of: Param -> seq<FieldType>): seq<FieldType> {
    if params == [] then [] else Fields(params[..|params| - 1], of) + of(params[|params| - 1])
  }

  function ResultSize(h: Hook): nat { if h.ret.Some? then Size(h.ret.value) else 0 }

  predicate IsAsync(h: Hook) { h.isAsync == Some(true) }

  function ClientRequest(h: Hook, c: Config): seq<FieldType> {
    Fields(h.params, (p: Param) => ClientSends(p, c)) + h.injections.clientExtraSend
  }

  function ServerRequest(h: Hook, c: Config): seq<FieldType> {
    Fields(h.params, (p: Param) => ServerReceives(p, c)) + h.injections.serverExtraRecv
  }

  /** Both stubs return before any reply under the same two tests. */
  predicate ClientReturnsEarly(h: Hook, c: Config) {
    (CreatesHandle(h.params) && c.shadowDesc) || (IsAsync(h) && c.asyncApi)
  }

  predicate ServerReturnsEarly(h: Hook, c: Config) {
    if CreatesHandle(h.params) && c.shadowDesc then true else IsAsync(h) && c.asyncApi
  }

  function ServerReply(h: Hook, c: Config): seq<FieldType> {
    if ServerReturnsEarly(h, c) then []
    else h.injections.serverInitialSend + Fields(h.params, ServerReplies) + [Fixed(ResultSize(h))]
  }

  function ClientReply(h: Hook, c: Config): seq<FieldType> {
    if ClientReturnsEarly(h, c) then []
    else h.injections.clientInitialRecv + Fields(h.params, ClientReceives) + [Fixed(ResultSize(h))]
  }

  /** What a hook author owes for hand-written statements: both sides move the same fields. */
  predicate InjectionsMatch(i: Injections) {
    i.clientExtraSend == i.serverExtraRecv && i.clientInitialRecv == i.serverInitialSend
  }

  lemma {:induction false} FieldsAgree(params: seq<Param>, f: Param -> seq<FieldType>, g: Param -> seq<FieldType>)
    requires forall p :: p in params ==> f(p) == g(p)
    ensures Fields(params, f) == Fields(params, g)
  {
    if params != [] {
      FieldsAgree(params[..|params| - 1], f, g);
    }
  }

  /** The stubs are duals: what one sends is what the other receives, in order, both ways. */
  lemma StubsAreDual(h: Hook, c: Config)
    requires InjectionsMatch(h.injections)
    ensures ClientRequest(h, c) == ServerRequest(h, c)
    ensures ClientReply(h, c) == ServerReply(h, c)
    ensures ClientReply(h, c) == [] <==> ClientReturnsEarly(h, c)
  {
    FieldsAgree(h.params, (p: Param) => ClientSends(p, c), (p: Param) => ServerReceives(p, c));
    FieldsAgree(h.params, ClientReceives, ServerReplies);
  }

  // ---------------------------------------------------------------- what acceptance guarantees

  lemma {:induction false} CountPositive(params: seq<Param>, test: Kind -> bool)
    ensures Count(params, test) > 0 <==> exists i :: 0 <= i < |params| && test(params[i].kind)
  {
    if params != [] {
      var front := params[..|params| - 1];
      CountPositive(front, test);
      if Count(front, test) > 0 {
        var i :| 0 <= i < |front| && test(front[i].kind);
        assert test(params[i].kind);
      }
      if i :| 0 <= i < |params| && test(params[i].kind) {
        assert i < |front| ==> test(front[i].kind);
      }
    }
  }

  lemma {:induction false} CountUnique(params: seq<Param>, test: Kind -> bool, i: nat, j: nat)
    requires Count(params, test) <= 1
    requires i < j < |params| && test(params[i].kind)
    ensures !test(params[j].kind)
  {
    var front := params[..|params| - 1];
    if j < |front| {
      assert front[i] == params[i] && front[j] == params[j];
      CountUnique(front, test, i, j);
    } else {
      assert test(front[i].kind);
      CountPositive(front, test);
    }
  }

  predicate HandleOfType(ty: Ty, op: HandleOp, key: Option<nat>) {
    ty.HandleTy? && (key.Some? <==> (op.Create? || op.Modify?) && ty.keyed)
  }

  /** Kinds fit their types: every pointer the stubs dereference is one, and a parameter carries a key
      exactly when it creates or modifies a keyed handle. */
  predicate Fits(p: Param) {
    match p.kind
    case InputHandle(op, key) => HandleOfType(p.ty, op, key) && (op.Use? || op.Modify? || op.Destroy?)
    case OutputHandle(key) => p.ty.Ptr? && !p.ty.isConst && HandleOfType(p.ty.elem, Create, key)
    case InputSinglePtr => p.ty.Ptr? && !p.ty.elem.Void?
    case InputArrayPtr(isVoid) => p.ty.Ptr? && isVoid == p.ty.elem.Void?
    case InputCStr => p.ty.Ptr? && p.ty.isConst && p.ty.elem.Char?
    case OutputSinglePtr => p.ty.Ptr? && !p.ty.isConst && !p.ty.elem.Void?
    case OutputArrayPtr(isVoid, _) => p.ty.Ptr? && !p.ty.isConst && isVoid == p.ty.elem.Void?
    case InputValue => !p.ty.Ptr? && !p.ty.HandleTy?
    case DeviceInputPtr => p.ty.Ptr?
    case DeviceOutputPtr => false
    case Skip => true
    case Const => true
  }

  lemma {:induction false} ParsedFits(args: seq<(Attr, Ty)>)
    requires ParseParams(args).Some?
    ensures forall p :: p in ParseParams(args).value ==> Fits(p)
  {
    if args != [] {
      ParsedFits(args[..|args| - 1]);
    }
  }

  /** `handle_proxy` after the server's receive statements, in order, for the words received. */
  function HandleProxy(params: seq<Param>, words: seq<nat>): Option<nat>
    requires |words| == |params|
  {
    if params == [] then None
    else
      var last := |params| - 1;
      if SetsProxy(params[last].kind) then Some(words[last]) else HandleProxy(params[..last], words[..last])
  }

  function OpKeyOf(k: Kind): Option<nat> {
    match k
    case InputHandle(_, key) => key
    case OutputHandle(key) => key
    case _ => None
  }

  /** `find_map`: the first parameter with a key. */
  function OpKey(params: seq<Param>): Option<nat> {
    if params == [] then None
    else if OpKeyOf(params[0].kind).Some? then OpKeyOf(params[0].kind)
    else OpKey(params[1..])
  }

  predicate Records(h: Hook, c: Config) { c.shadowDesc && (CreatesHandle(h.params) || ModifiesHandle(h.params)) }

  function HandleType(p: Param): Ty { if p.kind.OutputHandle? then Pointee(p.ty) else p.ty }

  lemma {:induction false} ProxyOfOnly(params: seq<Param>, words: seq<nat>, i: nat)
    requires |words| == |params| && i < |params| && SetsProxy(params[i].kind)
    requires forall j :: 0 <= j < |params| && j != i ==> !SetsProxy(params[j].kind)
    ensures HandleProxy(params, words) == Some(words[i])
  {
    var last := |params| - 1;
    if i < last {
      ProxyOfOnly(params[..last], words[..last], i);
    }
  }

  lemma {:induction false} NoProxy(params: seq<Param>, words: seq<nat>)
    requires |words| == |params| && forall p :: p in params ==> !SetsProxy(p.kind)
    ensures HandleProxy(params, words) == None
  {
    if params != [] {
      NoProxy(params[..|params| - 1], words[..|params| - 1]);
    }
  }

  lemma {:induction false} KeyOfOnly(params: seq<Param>, i: nat)
    requires i < |params|
    requires forall j :: 0 <= j < |params| && j != i ==> OpKeyOf(params[j].kind).None?
    ensures OpKey(params) == OpKeyOf(params[i].kind)
  {
    if i > 0 {
      KeyOfOnly(params[1..], i - 1);
    } else if OpKeyOf(params[0].kind).None? {
      NoKey(params);
    }
  }

  lemma {:induction false} NoKey(params: seq<Param>)
    requires forall p :: p in params ==> OpKeyOf(p.kind).None?
    ensures OpKey(params) == None
  {
    if params != [] {
      NoKey(params[1..]);
    }
  }

  /** The parameter whose handle a recorded call belongs to, among all that could claim it. */
  ghost predicate Subject(h: Hook, i: nat) {
    && i < |h.params| && SetsProxy(h.params[i].kind)
    && forall j :: 0 <= j < |h.params| && j != i ==> !ChangesHandle(h.params[j].kind)
  }

  lemma {:induction false} SubjectExists(h: Hook) returns (i: nat)
    requires Accepted(h) && (CreatesHandle(h.params) || ModifiesHandle(h.params))
    ensures Subject(h, i)
  {
    if CreatesHandle(h.params) {
      CountPositive(h.params, (k: Kind) => k.OutputHandle?);
      i :| 0 <= i < |h.params| && h.params[i].kind.OutputHandle?;
    } else {
      CountPositive(h.params, (k: Kind) => k.InputHandle? && k.op.Modify?);
      i :| 0 <= i < |h.params| && h.params[i].kind.InputHandle? && h.params[i].kind.op.Modify?;
    }
    forall j | 0 <= j < |h.params| && j != i ensures !ChangesHandle(h.params[j].kind) {
      if ChangesHandle(h.params[j].kind) {
        CountUnique(h.params, ChangesHandle, if i < j then i else j, if i < j then j else i);
      }
    }
  }

  lemma SubjectIsRecorded(h: Hook, words: seq<nat>, i: nat)
    requires |words| == |h.params| && Subject(h, i)
    requires forall p :: p in h.params ==> Fits(p)
    ensures HandleProxy(h.params, words) == Some(words[i])
    ensures OpKey(h.params) == OpKeyOf(h.params[i].kind)
    ensures HandleType(h.params[i]).HandleTy?
    ensures OpKey(h.params).Some? <==> HandleType(h.params[i]).keyed
  {
    assert Fits(h.params[i]);
    ProxyOfOnly(h.params, words, i);
    forall j | 0 <= j < |h.params| && j != i ensures OpKeyOf(h.params[j].kind).None? {
      assert Fits(h.params[j]);
    }
    KeyOfOnly(h.params, i);
  }

  lemma UnrecordedHasNoProxy(h: Hook, words: seq<nat>)
    requires |words| == |h.params| && !CreatesHandle(h.params) && !ModifiesHandle(h.params)
    requires forall p :: p in h.params ==> Fits(p)
    ensures HandleProxy(h.params, words) == None && OpKey(h.params) == None
  {
    CountPositive(h.params, (k: Kind) => k.OutputHandle?);
    CountPositive(h.params, (k: Kind) => k.InputHandle? && k.op.Modify?);
    NoProxy(h.params, words);
    NoKey(h.params);
  }

  /** In an accepted hook that creates or modifies a handle, exactly one parameter is that handle; the
      server's `handle_proxy` is the word received for it, so its unwrap cannot fail; the recorded key
      is that parameter's own; and there is a key exactly when the handle's type is keyed, so one
      handle never mixes keyed and unkeyed records. A hook that does neither has no proxy and no key. */
  lemma RecordsBelongToTheirHandle(h: Hook, words: seq<nat>)
    requires Accepted(h) && |words| == |h.params|
    ensures CreatesHandle(h.params) || ModifiesHandle(h.params) ==> exists i: nat :: Subject(h, i)
    ensures forall i: nat :: Subject(h, i) ==>
              && HandleProxy(h.params, words) == Some(words[i])
              && OpKey(h.params) == OpKeyOf(h.params[i].kind)
              && HandleType(h.params[i]).HandleTy?
              && (OpKey(h.params).Some? <==> HandleType(h.params[i]).keyed)
    ensures !(CreatesHandle(h.params) || ModifiesHandle(h.params)) ==>
              HandleProxy(h.params, words) == None && OpKey(h.params) == None
  {
    hide HandleProxy, OpKey, OpKeyOf, HandleType, Fits, Count, ParseParams, CheckAsync;
    var args :| NewHook(h.procId, h.isAsync, args, h.ret, h.injections) == Some(h);
    ParsedFits(args);
    forall i: nat | Subject(h, i)
      ensures i < |h.params| && HandleProxy(h.params, words) == Some(words[i])
      ensures OpKey(h.params) == OpKeyOf(h.params[i].kind) && HandleType(h.params[i]).HandleTy?
      ensures OpKey(h.params).Some? <==> HandleType(h.params[i]).keyed
    {
      SubjectIsRecorded(h, words, i);
    }
    if CreatesHandle(h.params) || ModifiesHandle(h.params) {
      var i := SubjectExists(h);
    } else {
      UnrecordedHasNoProxy(h, words);
    }
  }

  /** The host outputs the client stub has written when it returns: handles at once when proxies are
      shadowed, everything else from the reply. */
  ghost predicate ClientWrites(h: Hook, c: Config, i: nat)
    requires i < |h.params|
  {
    || (h.params[i].kind.OutputHandle? && c.shadowDesc)
    || (IsHostOutput(h.params[i].kind) && !ClientReturnsEarly(h, c))
  }

  /** Returning early never costs the caller a result: every host output is written under every
      setting of the options, and no statement after the early return exists to be skipped. */
  lemma EarlyReturnLosesNothing(h: Hook, c: Config)
    requires Accepted(h)
    ensures forall i :: 0 <= i < |h.params| && IsHostOutput(h.params[i].kind) ==> ClientWrites(h, c, i)
    ensures ClientReturnsEarly(h, c) ==> !HasAfter(h.injections)
    ensures ClientReturnsEarly(h, c) && h.ret.Some? && !CreatesHandle(h.params) ==> h.ret.value.Plain? && h.ret.value.status
  {
    CountPositive(h.params, IsHostOutput);
    if CreatesHandle(h.params) {
      CountPositive(h.params, (k: Kind) => k.OutputHandle?);
      var k :| 0 <= k < |h.params| && h.params[k].kind.OutputHandle?;
      forall i | 0 <= i < |h.params| && IsHostOutput(h.params[i].kind) ensures ClientWrites(h, c, i) {
        if i != k {
          CountUnique(h.params, IsHostOutput, if i < k then i else k, if i < k then k else i);
        }
      }
    }
  }

  // ---------------------------------------------------------------- streams of calls

  /** One call: the hook, the values the client sends, the values the server answers, and how many
      elements the client's own buffers have for them. */
  datatype Call = Call(h: Hook, args: seq<Value>, reply: seq<Value>, room: seq<nat>)

  ghost predicate WellFormed(hooks: map<nat, Hook>, c: Config, call: Call) {
    && call.h.procId < Pow256(4) && call.h.procId in hooks && hooks[call.h.procId] == call.h
    && InjectionsMatch(call.h.injections)
    && AllWellTyped(ClientRequest(call.h, c), call.args)
    && AllWellTyped(ServerReply(call.h, c), call.reply)
  }

  /** Everything the client puts on the request ring. */
  ghost function RequestStream(calls: seq<Call>): seq<Byte> {
    if calls == [] then []
    else ToLe(calls[0].h.procId, 4) + EncodeAll(calls[0].args) + RequestStream(calls[1..])
  }

  /** The worker loop on a byte stream: procedure id, dispatch, the stub's receives. Some(calls) if
      it gets to the end of the stream exactly between two requests. */
  ghost function Serve(hooks: map<nat, Hook>, c: Config, s: seq<Byte>): Option<seq<(nat, seq<Value>)>>
    decreases |s|
  {
    if s == [] then Some([])
    else if |s| < 4 then None
    else
      var id := FromLe(s[..4]);
      if id !in hooks then None                              // dispatch: invalid proc_id
      else match DecodeAll(ServerRequest(hooks[id], c), s[4..])
        case None => None
        case Some((args, rest)) =>
          if |rest| >= |s| then None
          else match Serve(hooks, c, rest)
            case None => None
            case Some(more) => Some([(id, args)] + more)
  }

  ghost function Requests(calls: seq<Call>): seq<(nat, seq<Value>)> {
    if calls == [] then [] else [(calls[0].h.procId, calls[0].args)] + Requests(calls[1..])
  }

  /** One request, wherever the stream goes on after it. */
  lemma ServeOne(hooks: map<nat, Hook>, c: Config, call: Call, rest: seq<Byte>)
    requires WellFormed(hooks, c, call) && Serve(hooks, c, rest).Some?
    ensures Serve(hooks, c, ToLe(call.h.procId, 4) + EncodeAll(call.args) + rest)
         == Some([(call.h.procId, call.args)] + Serve(hooks, c, rest).value)
  {
    hide ClientRequest, ServerRequest, ServerReply, DecodeAll, EncodeAll, ToLe, FromLe, Pow256, AllWellTyped, InjectionsMatch;
    var id, body := ToLe(call.h.procId, 4), EncodeAll(call.args);
    var s := id + body + rest;
    LeRoundTrip(call.h.procId, 4);
    StubsAreDual(call.h, c);
    assert s[..4] == id && s[4..] == body + rest;
    DecodeEncodeAll(ServerRequest(call.h, c), call.args, rest);
  }

  /** Over any sequence of calls the request stream stays aligned: the server dispatches exactly the
      calls the client made, with exactly the arguments it sent, and nothing is left over. */
  lemma {:induction false} RequestsStayAligned(hooks: map<nat, Hook>, c: Config, calls: seq<Call>)
    requires forall i :: 0 <= i < |calls| ==> WellFormed(hooks, c, calls[i])
    ensures Serve(hooks, c, RequestStream(calls)) == Some(Requests(calls))
  {
    hide WellFormed, EncodeAll, ToLe;
    if calls != [] {
      RequestsStayAligned(hooks, c, calls[1..]);
      hide Serve;
      ServeOne(hooks, c, calls[0], RequestStream(calls[1..]));
    }
  }

  ghost function ReplyStream(calls: seq<Call>): seq<Byte> {
    if calls == [] then [] else EncodeAll(calls[0].reply) + ReplyStream(calls[1..])
  }

  /** `recv_slice_to` asserts that an array has as many elements as the caller's buffer. */
  predicate FitsRoom(vs: seq<Value>, room: seq<nat>) {
    forall i :: 0 <= i < |vs| && vs[i].Items? ==> i < |room| && vs[i].count == room[i]
  }

  /** The client's side of the reply ring: after each call it takes that call's reply fields. */
  ghost function TakeReplies(c: Config, calls: seq<Call>, s: seq<Byte>): Option<(seq<seq<Value>>, seq<Byte>)> {
    if calls == [] then Some(([], s))
    else match DecodeAll(ClientReply(calls[0].h, c), s)
      case None => None
      case Some((vs, rest)) =>
        if !FitsRoom(vs, calls[0].room) then None
        else match TakeReplies(c, calls[1..], rest)
          case None => None
          case Some((more, rest')) => Some(([vs] + more, rest'))
  }

  ghost function Replies(calls: seq<Call>): seq<seq<Value>> {
    if calls == [] then [] else [calls[0].reply] + Replies(calls[1..])
  }

  /** Replies reach the calls they answer, and once the client is out of its last call the reply
      ring is empty: exactly if both sides' length expressions agree in every call. */
  lemma {:induction false} RepliesStayAligned(hooks: map<nat, Hook>, c: Config, calls: seq<Call>)
    requires forall i :: 0 <= i < |calls| ==> WellFormed(hooks, c, calls[i])
    ensures TakeReplies(c, calls, ReplyStream(calls)) ==
            if forall i :: 0 <= i < |calls| ==> FitsRoom(calls[i].reply, calls[i].room) then Some((Replies(calls), [])) else None
  {
    hide FitsRoom, ClientReply, ServerReply, ClientRequest, DecodeAll, EncodeAll, AllWellTyped;
    if calls != [] {
      assert WellFormed(hooks, c, calls[0]);
      StubsAreDual(calls[0].h, c);
      DecodeEncodeAll(ClientReply(calls[0].h, c), calls[0].reply, ReplyStream(calls[1..]));
      RepliesStayAligned(hooks, c, calls[1..]);
    }
  }
}
