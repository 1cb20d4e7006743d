/** What a hook description means on the wire, stated from the attribute and the type its author wrote
    for each parameter: which descriptions are accepted, and what every parameter of an accepted one
    moves in each direction. */
module HookLaws {
  import opened Options
  import opened Wire
  import opened Stubs

  type Arg = (Attr, Ty)

  // ---------------------------------------------------------------- descriptions

  /** An argument passed by value, without an attribute. */
  predicate ByValue(a: Arg) { a.0.NoAttr? && !a.1.Ptr? && !a.1.HandleTy? }

  /** A key is written exactly where a keyed handle is created or modified. */
  predicate KeyFits(attr: Attr, handle: Ty)
    requires attr.HandleAttr? && handle.HandleTy?
  {
    attr.key.Some? <==> handle.keyed && (attr.op.Create? || attr.op.Modify?)
  }

  predicate HandleIn(a: Arg) {
    a.1.HandleTy? && a.0.HandleAttr? && (a.0.op.Use? || a.0.op.Modify? || a.0.op.Destroy?) && KeyFits(a.0, a.1)
  }

  predicate HandleOut(a: Arg) {
    a.1.Ptr? && a.1.elem.HandleTy? && !a.1.isConst && a.0.HandleAttr? && a.0.op.Create? && KeyFits(a.0, a.1.elem)
  }

  predicate String(a: Arg) { a.0.NoAttr? && a.1 == Ptr(true, Char) }

  /** A mutable pointer without an attribute: the callee's single result. */
  predicate Result(a: Arg) { a.0.NoAttr? && a.1.Ptr? && !a.1.isConst && !a.1.elem.Void? && !a.1.elem.HandleTy? }

  predicate Device(a: Arg) { a.0.DeviceAttr? && a.1.Ptr? && !a.1.elem.HandleTy? }

  predicate Host(a: Arg) { a.0.HostAttr? && a.1.Ptr? && !a.1.elem.HandleTy? && (a.1.elem.Void? ==> a.0.hasLen) }

  predicate HostIn(a: Arg) { Host(a) && !a.0.hasCap && a.0.mode == (if a.1.isConst then NoMode else Input) }

  predicate HostOut(a: Arg) { Host(a) && !a.1.isConst && a.0.mode.Output? && (a.0.hasCap ==> a.0.hasLen) }

  /** Nothing of the argument is transferred. */
  predicate Untransferred(a: Arg) { a.0.SkipAttr? || a.0.ValueAttr? }

  predicate MayStand(a: Arg) {
    || Untransferred(a)
    || ByValue(a) || HandleIn(a) || String(a) || Device(a) || HostIn(a)
    || HandleOut(a) || Result(a) || HostOut(a)
  }

  /** An argument through which the caller is given something. */
  predicate Returns(a: Arg) { HandleOut(a) || Result(a) || HostOut(a) }

  predicate Changes(a: Arg) { a.0.HandleAttr? && (a.0.op.Create? || a.0.op.Modify? || a.0.op.Destroy?) }

  // ---------------------------------------------------------------- one parameter

  /** The field that carries what a host pointer points to: one element, or with a length a slice,
      of bytes where the element type is void. */
  function Pointed(a: Arg): FieldType
    requires a.1.Ptr?
  {
    if !a.0.HostAttr? || !a.0.hasLen then Fixed(Size(a.1.elem))
    else if a.1.elem.Void? then Slice(1)
    else Slice(Size(a.1.elem))
  }

  /** What the fields of a parameter in the two directions must be. */
  ghost predicate MovesAs(a: Arg, c: Config, request: seq<FieldType>, reply: seq<FieldType>) {
    && (ByValue(a) ==> request == [Fixed(Size(a.1))])
    && (HandleIn(a) || Device(a) ==> request == [Fixed(8)])
    && (String(a) ==> request == [CStr])
    && (HostIn(a) ==> request == [Pointed(a)])
    && (HandleOut(a) ==> request == (if c.shadowDesc then [Fixed(8)] else []) && reply == [Fixed(8)])
    && (Result(a) || HostOut(a) ==> request == [] && reply == [Pointed(a)])
    && (Result(a) && a.1.elem.Char? ==> reply == [Fixed(1)])
    && (Untransferred(a) ==> request == [])
    && (reply != [] <==> !Untransferred(a) && Returns(a))
    && (!Untransferred(a) ==> request != [] || reply != [])
  }

  /** What the generated stubs do with the handle: look it up, record it, drop it, under which key. */
  ghost predicate HandledAs(a: Arg, k: Kind) {
    && (k.InputHandle? <==> !Untransferred(a) && HandleIn(a))
    && (k.OutputHandle? <==> !Untransferred(a) && HandleOut(a))
    && (k.InputHandle? ==> k.op == a.0.op && k.key == a.0.key)
    && (k.OutputHandle? ==> k.key == a.0.key)
  }

  lemma ParsesExactly(a: Arg)
    ensures ParseKind(a.0, a.1).Some? <==> MayStand(a)
  {
  }

  lemma ParamMoves(a: Arg, k: Kind, c: Config)
    requires ParseKind(a.0, a.1) == Some(k)
    ensures MovesAs(a, c, ClientSends(Param(a.1, k), c), ClientReceives(Param(a.1, k)))
    ensures MovesAs(a, c, ServerReceives(Param(a.1, k), c), ServerReplies(Param(a.1, k)))
    ensures HandledAs(a, k)
    ensures IsHostOutput(k) <==> !Untransferred(a) && Returns(a)
    ensures ChangesHandle(k) <==> Changes(a)
  {
  }

  // ---------------------------------------------------------------- a whole hook

  lemma {:induction false} ParamsExactly(args: seq<Arg>)
    ensures ParseParams(args).Some? <==> forall i :: 0 <= i < |args| ==> MayStand(args[i])
    ensures var params := ParseParams(args);
            params.Some? ==>
              && |params.value| == |args|
              && forall i :: 0 <= i < |args| ==>
                   params.value[i].ty == args[i].1 && ParseKind(args[i].0, args[i].1) == Some(params.value[i].kind)
  {
    hide ParseKind, MayStand;
    if args != [] {
      var front, last := args[..|args| - 1], args[|args| - 1];
      ParamsExactly(front);
      ParsesExactly(last);
      assert forall i :: 0 <= i < |front| ==> front[i] == args[i];
      if forall i :: 0 <= i < |args| ==> MayStand(args[i]) {
        assert forall i :: 0 <= i < |front| ==> MayStand(front[i]);
      } else {
        var i :| 0 <= i < |args| && !MayStand(args[i]);
        if i < |front| { assert !MayStand(front[i]); }
      }
    }
  }

  /** A count of at most one, from the elements. */
  lemma {:induction false} CountAtMostOne(params: seq<Param>, test: Kind -> bool)
    ensures Count(params, test) <= 1 <==> forall i, j :: 0 <= i < j < |params| ==> !(test(params[i].kind) && test(params[j].kind))
  {
    if Count(params, test) <= 1 {
      forall i, j | 0 <= i < j < |params| && test(params[i].kind) ensures !test(params[j].kind) {
        CountUnique(params, test, i, j);
      }
    } else {
      var front := params[..|params| - 1];
      CountPositive(front, test);
      var i :| 0 <= i < |front| && test(front[i].kind);
      CountAtMostOne(front, test);
      if Count(front, test) > 1 {
        var j, k :| 0 <= j < k < |front| && test(front[j].kind) && test(front[k].kind);
        assert test(params[j].kind) && test(params[k].kind);
      } else {
        assert test(params[i].kind) && test(params[|params| - 1].kind);
      }
    }
  }

  /** No statement runs after the call would have returned early. */
  predicate NothingAfter(i: Injections) { !i.clientAfterRecv && i.serverInitialSend == [] && !i.serverAfterSend }

  /** The rules a description must keep to be accepted, from its arguments alone. */
  ghost predicate Acceptable(isAsync: Option<bool>, args: seq<Arg>, ret: Option<Ty>, i: Injections) {
    && (forall k :: 0 <= k < |args| ==> MayStand(args[k]))
    && (isAsync == Some(true) ==>
          && NothingAfter(i)
          && (forall k :: 0 <= k < |args| ==> !Gives(args[k]))
          && (ret == None || (ret.value.Plain? && ret.value.status)))
    && (forall j, k :: 0 <= j < k < |args| ==> !(Changes(args[j]) && Changes(args[k])))
    && ((exists k :: 0 <= k < |args| && Creates(args[k])) ==>
          && NothingAfter(i)
          && (forall j, k :: 0 <= j < k < |args| ==> !(Gives(args[j]) && Gives(args[k]))))
  }

  predicate Gives(a: Arg) { !Untransferred(a) && Returns(a) }

  predicate Creates(a: Arg) { !Untransferred(a) && HandleOut(a) }

  /** What each argument's parameter was parsed into, as far as the acceptance rules look. */
  ghost predicate Reads(args: seq<Arg>, params: seq<Param>) {
    && |params| == |args|
    && forall i :: 0 <= i < |args| ==>
         && (IsHostOutput(params[i].kind) <==> Gives(args[i]))
         && (ChangesHandle(params[i].kind) <==> Changes(args[i]))
         && (params[i].kind.OutputHandle? <==> Creates(args[i]))
  }

  lemma ParsedReads(args: seq<Arg>)
    requires ParseParams(args).Some?
    ensures Reads(args, ParseParams(args).value)
  {
    hide ParseKind, ParseParams, MayStand, Returns, Changes, Untransferred, HandleOut, IsHostOutput, ChangesHandle, MovesAs;
    ParamsExactly(args);
    var params := ParseParams(args).value;
    forall i | 0 <= i < |args|
      ensures IsHostOutput(params[i].kind) <==> Gives(args[i])
      ensures ChangesHandle(params[i].kind) <==> Changes(args[i])
      ensures params[i].kind.OutputHandle? <==> Creates(args[i])
    {
      ParamMoves(args[i], params[i].kind, Config(true, true));
    }
  }

  lemma AsyncExactly(args: seq<Arg>, params: seq<Param>, ret: Option<Ty>, i: Injections)
    requires Reads(args, params)
    ensures CheckAsync(params, ret, i) <==>
            && NothingAfter(i)
            && (forall k :: 0 <= k < |args| ==> !Gives(args[k]))
            && (ret == None || (ret.value.Plain? && ret.value.status))
  {
    hide IsHostOutput, ChangesHandle, Gives, Changes, Creates;
    CountPositive(params, IsHostOutput);
  }

  lemma CreatesExactly(args: seq<Arg>, params: seq<Param>)
    requires Reads(args, params)
    ensures CreatesHandle(params) <==> exists k :: 0 <= k < |args| && Creates(args[k])
  {
    hide IsHostOutput, ChangesHandle, Gives, Changes, Creates;
    CountPositive(params, (k: Kind) => k.OutputHandle?);
    if k :| 0 <= k < |args| && Creates(args[k]) {
      assert params[k].kind.OutputHandle?;
    }
  }

  lemma AtMostOnce(args: seq<Arg>, params: seq<Param>)
    requires Reads(args, params)
    ensures Count(params, ChangesHandle) <= 1 <==> forall j, k :: 0 <= j < k < |args| ==> !(Changes(args[j]) && Changes(args[k]))
    ensures Count(params, IsHostOutput) <= 1 <==> forall j, k :: 0 <= j < k < |args| ==> !(Gives(args[j]) && Gives(args[k]))
  {
    hide IsHostOutput, ChangesHandle, Gives, Changes, Creates;
    CountAtMostOne(params, ChangesHandle);
    CountAtMostOne(params, IsHostOutput);
  }

  /** Exactly the acceptable descriptions become hooks, and the hook says what the description says. */
  lemma AcceptedExactly(procId: nat, isAsync: Option<bool>, args: seq<Arg>, ret: Option<Ty>, i: Injections)
    ensures var h := NewHook(procId, isAsync, args, ret, i);
            && (h.Some? <==> Acceptable(isAsync, args, ret, i))
            && (h.Some? ==>
                  && h.value.procId == procId && h.value.isAsync == isAsync && h.value.ret == ret && h.value.injections == i
                  && ParseParams(args) == Some(h.value.params))
  {
    hide MayStand, Gives, Changes, Creates, CheckAsync, CreatesHandle, Count, ParseParams, IsHostOutput, ChangesHandle, Reads;
    ParamsExactly(args);
    if ParseParams(args).Some? {
      var params := ParseParams(args).value;
      ParsedReads(args);
      AsyncExactly(args, params, ret, i);
      CreatesExactly(args, params);
      AtMostOnce(args, params);
    }
  }

  /** Main result. In every hook made from a description, each parameter moves exactly the fields
      its attribute and type say, on both sides, and its handle is treated as the attribute says. */
  lemma EveryParamMoves(procId: nat, isAsync: Option<bool>, args: seq<Arg>, ret: Option<Ty>, inj: Injections, c: Config, i: nat)
    requires NewHook(procId, isAsync, args, ret, inj).Some? && i < |args|
    ensures var h := NewHook(procId, isAsync, args, ret, inj).value;
            && |h.params| == |args| && h.params[i].ty == args[i].1
            && MovesAs(args[i], c, ClientSends(h.params[i], c), ClientReceives(h.params[i]))
            && MovesAs(args[i], c, ServerReceives(h.params[i], c), ServerReplies(h.params[i]))
            && HandledAs(args[i], h.params[i].kind)
  {
    hide ParseKind, ParseParams, MayStand, MovesAs, HandledAs, ClientSends, ClientReceives, ServerReceives, ServerReplies;
    AcceptedExactly(procId, isAsync, args, ret, inj);
    ParamsExactly(args);
    ParamMoves(args[i], NewHook(procId, isAsync, args, ret, inj).value.params[i].kind, c);
  }

  /** No reply exactly when a handle is created under shadowed proxies or the call is asynchronous
      under that option; otherwise it ends in the call's result, empty where nothing is returned. */
  lemma RepliesExactly(procId: nat, isAsync: Option<bool>, args: seq<Arg>, ret: Option<Ty>, inj: Injections, c: Config)
    requires NewHook(procId, isAsync, args, ret, inj).Some?
    ensures var h := NewHook(procId, isAsync, args, ret, inj).value;
            var silent := (c.shadowDesc && exists k :: 0 <= k < |args| && Creates(args[k])) || (c.asyncApi && isAsync == Some(true));
            var result := if ret.None? || ret.value.Void? then 0 else Size(ret.value);
            && (ClientReply(h, c) == [] <==> silent) && (ServerReply(h, c) == [] <==> silent)
            && (!silent ==> ClientReply(h, c)[|ClientReply(h, c)| - 1] == Fixed(result))
            && (!silent ==> ServerReply(h, c)[|ServerReply(h, c)| - 1] == Fixed(result))
  {
    hide ParseParams, Fields, CreatesHandle, Creates, Reads, CheckAsync, Count, Acceptable;
    AcceptedExactly(procId, isAsync, args, ret, inj);
    ParsedReads(args);
    CreatesExactly(args, ParseParams(args).value);
  }
}
