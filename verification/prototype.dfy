/**
 Function signatures and prototypes (`make_signature`, `make_prototype`):
 which LLVM functions and message types a reachable method is declared with.
 */
module Prototype {
  import opened Wrappers
  import opened Reach
  import opened ParamAttributes

  /** `make_signature`: the receiver, then each declared parameter; class
      constructors return void, every other method its declared result. */
  function Signature(t: ReachType, m: ReachMethod): (s: FnType)
    ensures |s.params| == |m.params| + 1
    ensures s.params[0] == UseType(t)
    ensures forall i :: 0 <= i < |m.params| ==> s.params[i + 1] == UseType(m.params[i].ty)
    ensures s.ret == Void <==> m.kind == New && t.underlying == Class
    ensures s.ret != Void ==> s.ret == UseType(m.result)
  {
    var params := [UseType(t)] + seq(|m.params|, i requires 0 <= i < |m.params| => UseType(m.params[i].ty));
    FnType(if m.kind == New && t.underlying == Class then Void else UseType(m.result), params)
  }

  /** Behaviours and actor constructors are run from a message, so they get
      a handler function. */
  predicate IsHandler(t: ReachType, m: ReachMethod) {
    m.kind == Be || (m.kind == New && t.underlying == Actor)
  }

  /** The message struct of a signature: the signature's parameter types are
      copied in from slot 2, then slots 0, 1 and 2 are overwritten with two
      32-bit words and an untyped pointer. */
  function MessageType(sig: FnType): (fields: seq<LlType>)
    requires |sig.params| >= 1
    ensures |fields| == |sig.params| + 2
    ensures fields[0] == I32 && fields[1] == I32 && fields[2] == VoidPtr
    ensures forall i :: 1 <= i < |sig.params| ==> fields[i + 2] == sig.params[i]
  {
    ([Void, Void] + sig.params)[0 := I32][1 := I32][2 := VoidPtr]
  }

  /** A declared LLVM function: its symbol, type, parameter attributes and
      whether it uses the C calling convention with external linkage. */
  datatype FnDecl = FnDecl(symbol: Symbol, ty: FnType, attrs: seq<AttrAt>, exported: bool)

  /** What `make_prototype` declares for one method: `func` (the sender of a
      handler, or the plain function), `handler`, and the message type. */
  datatype Proto = Proto(func: Option<FnDecl>, handler: Option<FnDecl>, msgType: Option<seq<LlType>>)

  /** The effect of `make_prototype`: the declarations, the method's new
      `func_type`, and the type's finaliser after the call. */
  datatype Declared = Declared(proto: Proto, funcType: Option<FnType>, finaliser: Option<Symbol>)

  /** The declarations `make_prototype` makes for a non-intrinsic method,
      before the finaliser is registered. The sender and the handler have the
      same parameter types, so the two calls of `genfun_param_attrs` add the
      same attributes. */
  function Declare(t: ReachType, m: ReachMethod): (r: Result<Proto, Fault>)
    // Only concrete and abstract types have methods.
    ensures !IsConcrete(t.underlying) && !IsAbstract(t.underlying) ==>
      r == Failure(UnexpectedType(t.underlying))
    // Abstract types get a message type only.
    ensures IsAbstract(t.underlying) ==>
      r == Success(Proto(None, None, Some(MessageType(Signature(t, m)))))
    // Concrete types fail exactly when a parameter has no attribute rule.
    ensures IsConcrete(t.underlying) ==>
      var sig := Signature(t, m);
      var attrs := ParamAttrs(t, m, sig.params, 0);
      && (r.Success? <==> attrs.Success?)
      // Handlers get a sender, a void handler with the same parameters, and
      // a message type.
      && (r.Success? && IsHandler(t, m) ==>
            r.value == Proto(Some(FnDecl(Sender(m.fullName), sig, attrs.value, false)),
                             Some(FnDecl(Named(m.fullName), FnType(Void, sig.params), attrs.value, false)),
                             Some(MessageType(sig))))
      // Other methods get one plain function.
      && (r.Success? && !IsHandler(t, m) ==>
            r.value == Proto(Some(FnDecl(Named(m.fullName), sig, attrs.value, false)), None, None))
  {
    var sig := Signature(t, m);
    if !IsConcrete(t.underlying) && !IsAbstract(t.underlying) then Failure(UnexpectedType(t.underlying))
    else if IsAbstract(t.underlying) then
      Success(Proto(None, None, Some(MessageType(sig))))
    else
      var attrs :- ParamAttrs(t, m, sig.params, 0);
      if IsHandler(t, m) then
        Success(Proto(Some(FnDecl(Sender(m.fullName), sig, attrs, false)),
                      Some(FnDecl(Named(m.fullName), FnType(Void, sig.params), attrs, false)),
                      Some(MessageType(sig))))
      else
        Success(Proto(Some(FnDecl(Named(m.fullName), sig, attrs, false)), None, None))
  }

  /** `make_prototype` for method `m` of type `t`. `isFinal` says whether the
      method is named `_final`; `finaliser` is the type's finaliser so far. */
  function MakePrototype(t: ReachType, m: ReachMethod, isFinal: bool, finaliser: Option<Symbol>): (r: Result<Declared, Fault>)
    // Intrinsic methods are not declared.
    ensures m.intrinsic ==> r == Success(Declared(Proto(None, None, None), None, finaliser))
    // Only concrete and abstract types have methods.
    ensures !m.intrinsic && !IsConcrete(t.underlying) && !IsAbstract(t.underlying) ==>
      r == Failure(UnexpectedType(t.underlying))
    // Otherwise the method's declarations are made and its type recorded.
    ensures r.Success? && !m.intrinsic ==>
      && r.value.funcType == Some(Signature(t, m))
      && Declare(t, m).Success?
      && r.value.proto.handler == Declare(t, m).value.handler
      && r.value.proto.msgType == Declare(t, m).value.msgType
      && (r.value.proto.func.Some? <==> Declare(t, m).value.func.Some?)
    ensures !m.intrinsic && Declare(t, m).Failure? ==> r == Failure(Declare(t, m).error)
    // A type has at most one finaliser, and it is exported.
    ensures r.Success? && !m.intrinsic && isFinal ==>
      && finaliser.None?
      && r.value.proto.func.Some?
      && r.value.proto.func.value == Declare(t, m).value.func.value.(exported := true)
      && r.value.finaliser == Some(r.value.proto.func.value.symbol)
    ensures !m.intrinsic && isFinal && finaliser.Some? ==> r.Failure?
    // A declared method's prototype is made unless the finaliser rule fails.
    ensures (&& !m.intrinsic && Declare(t, m).Success?
             && (!isFinal || (finaliser.None? && Declare(t, m).value.func.Some?))) ==> r.Success?
    ensures !m.intrinsic && Declare(t, m).Success? && isFinal && finaliser.Some? ==>
      r == Failure(FinaliserTwice)
    ensures (&& !m.intrinsic && Declare(t, m).Success? && isFinal && finaliser.None?
             && Declare(t, m).value.func.None?) ==> r == Failure(NoFinaliserFunction)
    ensures r.Success? && !m.intrinsic && !isFinal ==> r.value.proto.func == Declare(t, m).value.func
    ensures r.Success? && !isFinal ==> r.value.finaliser == finaliser
  {
    if m.intrinsic then Success(Declared(Proto(None, None, None), None, finaliser))
    else
      var proto :- Declare(t, m);
      if !isFinal then Success(Declared(proto, Some(Signature(t, m)), finaliser))
      else if finaliser.Some? then Failure(FinaliserTwice)
      else if proto.func.None? then Failure(NoFinaliserFunction)
      else
        var exported := proto.func.value.(exported := true);
        Success(Declared(proto.(func := Some(exported)), Some(Signature(t, m)), Some(exported.symbol)))
  }
}
