/**
 The dispatch case `add_dispatch_case` adds for one handler: it unpacks the
 handler's arguments from the message struct, brackets their tracing with a
 receive traversal when any of them needs tracing, and calls the handler.
 */
module Dispatch {
  import opened Wrappers
  import opened Reach
  import opened Prototype

  /** The code a dispatch case consists of, in emission order. */
  datatype Emit =
    | AddCase(id: nat)
    | LoadArg(arg: nat, field: nat)
    | RuntimeCall(name: string)
    | TraceArg(arg: nat, ty: ReachType)
    | CallHandler(argc: nat)
    | ReturnVoid

  /** The message struct field handler argument `i` is loaded from. */
  function ArgField(i: nat): nat {
    i + 2
  }

  /** The scan for a parameter that needs tracing, stopping at the first. */
  method NeedTrace(params: seq<Param>) returns (need: bool)
    ensures need <==> exists j :: 0 <= j < |params| && params[j].ty.traceNeeded
  {
    need := false;
    var i := 0;
    while i < |params|
      invariant 0 <= i <= |params|
      invariant !need
      invariant forall j :: 0 <= j < i ==> !params[j].ty.traceNeeded
    {
      if params[i].ty.traceNeeded {
        need := true;
        break;
      }
      i := i + 1;
    }
  }

  /** `add_dispatch_case` for a handler of type `handler` with declared
      parameters `params`, selected by message id `index`. */
  method AddDispatchCase(params: seq<Param>, index: nat, handler: FnType) returns (code: seq<Emit>)
    requires |handler.params| == |params| + 1
    ensures |code| >= |handler.params| + 2
    ensures code[0] == AddCase(index)
    ensures forall i :: 1 <= i < |handler.params| ==> code[i] == LoadArg(i, ArgField(i))
    ensures (RuntimeCall("pony_gc_recv") in code) <==>
      exists j :: 0 <= j < |params| && params[j].ty.traceNeeded
    ensures RuntimeCall("pony_gc_recv") in code ==>
      && |code| == 2 * |handler.params| + 3
      && code[|handler.params|] == RuntimeCall("pony_gc_recv")
      && (forall k :: |handler.params| < k < 2 * |handler.params| ==>
            code[k] == TraceArg(k - |handler.params|, params[k - |handler.params| - 1].ty))
      && code[2 * |handler.params|] == RuntimeCall("pony_recv_done")
    ensures RuntimeCall("pony_gc_recv") !in code ==>
      && |code| == |handler.params| + 2
      && RuntimeCall("pony_recv_done") !in code
    ensures code[|code| - 2] == CallHandler(|handler.params|)
    ensures code[|code| - 1] == ReturnVoid
  {
    var count := |handler.params|;
    code := [AddCase(index)];
    var i := 1;
    while i < count
      invariant 1 <= i <= count
      invariant |code| == i
      invariant code[0] == AddCase(index)
      invariant forall k :: 1 <= k < i ==> code[k] == LoadArg(k, ArgField(k))
    {
      code := code + [LoadArg(i, ArgField(i))];
      i := i + 1;
    }
    var loads := code;
    var need := NeedTrace(params);
    if need {
      code := code + [RuntimeCall("pony_gc_recv")];
      i := 1;
      while i < count
        invariant 1 <= i <= count
        invariant |code| == count + i
        invariant code[..count] == loads
        invariant code[count] == RuntimeCall("pony_gc_recv")
        invariant forall k :: count < k < count + i ==> code[k] == TraceArg(k - count, params[k - count - 1].ty)
      {
        code := code + [TraceArg(i, params[i - 1].ty)];
        i := i + 1;
      }
      code := code + [RuntimeCall("pony_recv_done")];
    }
    code := code + [CallHandler(count), ReturnVoid];
  }

  /** The message type of a signature holds, at the field the dispatch case
      loads handler argument `i` from, the type of declared parameter `i`;
      no argument is loaded from the header. */
  lemma MessageLayoutRoundTrip(t: ReachType, m: ReachMethod)
    ensures var sig := Signature(t, m);
      && |MessageType(sig)| == |sig.params| + 2
      && forall i :: 1 <= i < |sig.params| ==>
           && 3 <= ArgField(i) < |MessageType(sig)|
           && MessageType(sig)[ArgField(i)] == sig.params[i]
           && MessageType(sig)[ArgField(i)] == UseType(m.params[i - 1].ty)
  {
    var sig := Signature(t, m);
    forall i | 1 <= i < |sig.params|
      ensures MessageType(sig)[ArgField(i)] == UseType(m.params[i - 1].ty)
    {
      assert sig.params[(i - 1) + 1] == UseType(m.params[i - 1].ty);
    }
  }

  /** The layout round trip for a declared handler: the dispatch case reads
      each argument from the message field that holds its type, and the
      sender, whose parameters fill the message, takes the same parameters
      as the handler. */
  lemma DispatchReadsMessageLayout(t: ReachType, m: ReachMethod, isFinal: bool, finaliser: Option<Symbol>)
    requires MakePrototype(t, m, isFinal, finaliser).Success?
    requires MakePrototype(t, m, isFinal, finaliser).value.proto.handler.Some?
    ensures var p := MakePrototype(t, m, isFinal, finaliser).value.proto;
      && p.func.Some?
      && p.func.value.ty.params == p.handler.value.ty.params
      && p.msgType == Some(MessageType(p.handler.value.ty))
  {
    var p := MakePrototype(t, m, isFinal, finaliser).value.proto;
    var d := Declare(t, m).value;
    assert p.handler == d.handler && p.msgType == d.msgType;
    assert IsConcrete(t.underlying) && IsHandler(t, m);
  }
}
