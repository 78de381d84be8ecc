/**
 Method bodies (`genfun_method_bodies` and the generators it selects):
 which generator lowers each method, what a constructor returns, which
 embedded fields a finaliser finalises, and how a method's function is
 shared along its subordinate chain.
 */
module MethodBodies {
  import opened Wrappers
  import opened Reach
  import opened Prototype

  /** The body generators: `genfun_forward`, `genfun_newbe`, `genfun_new`,
      `genfun_be` and `genfun_fun`. */
  datatype Generator = Forwarder | NewBe | NewFn | BeFn | FunFn

  /** The generators that lower a handler and need its handler function. */
  predicate UsesHandler(g: Generator) {
    g == NewBe || g == BeFn
  }

  /** The generator `genfun_method_bodies` picks for method `m` of type `t`;
      `None` means no body is generated. */
  function BodyGenerator(t: ReachType, m: ReachMethod): (r: Result<Option<Generator>, Fault>)
    ensures r == Success(None) <==> !IsConcrete(t.underlying) || m.intrinsic
    ensures r == Success(Some(Forwarder)) <==>
      IsConcrete(t.underlying) && !m.intrinsic && m.forwarding
    ensures r.Failure? <==>
      IsConcrete(t.underlying) && !m.intrinsic && !m.forwarding && m.kind == OtherToken
    ensures r.Failure? ==> r.error == UnexpectedMethod
    ensures r.Success? && r.value.Some? && r.value.value != Forwarder ==>
      && !m.forwarding
      && (r.value.value == NewBe <==> m.kind == New && t.underlying == Actor)
      && (r.value.value == NewFn <==> m.kind == New && t.underlying != Actor)
      && (r.value.value == BeFn <==> m.kind == Be)
      && (r.value.value == FunFn <==> m.kind == Fun)
  {
    if !IsConcrete(t.underlying) || m.intrinsic then Success(None)
    else if m.forwarding then Success(Some(Forwarder))
    else match m.kind
      case New => Success(Some(if t.underlying == Actor then NewBe else NewFn))
      case Be => Success(Some(BeFn))
      case Fun => Success(Some(FunFn))
      case OtherToken => Failure(UnexpectedMethod)
  }

  /** The prototypes and the bodies agree: a concrete, non-forwarding method
      is lowered by a handler generator exactly when its prototype declared a
      handler function, and every generator finds the function it asserts. */
  lemma GeneratorMatchesPrototype(t: ReachType, m: ReachMethod, isFinal: bool, finaliser: Option<Symbol>)
    requires MakePrototype(t, m, isFinal, finaliser).Success?
    requires BodyGenerator(t, m).Success? && BodyGenerator(t, m).value.Some?
    requires !m.forwarding
    ensures var p := MakePrototype(t, m, isFinal, finaliser).value.proto;
      && p.func.Some?
      && (UsesHandler(BodyGenerator(t, m).value.value) <==> p.handler.Some?)
  {
  }

  /** What a lowered function returns. */
  datatype Return = ReturnVoid | ReturnThis | ReturnBody

  /** What `genfun_new` makes a constructor return: nothing for a class,
      the receiver for any other type that is not a machine word, and the
      body's value for a machine word. */
  function ConstructorReturn(t: ReachType): (r: Return)
    ensures r == ReturnVoid <==> t.underlying == Class
    ensures r == ReturnBody <==> t.underlying != Class && t.machineWord
    ensures r == ReturnThis <==> t.underlying != Class && !t.machineWord
  {
    var value := if !t.machineWord then ReturnThis else ReturnBody;
    if t.underlying == Class then ReturnVoid else value
  }

  /** A constructor's body returns void exactly when its signature does. */
  lemma ConstructorReturnMatchesSignature(t: ReachType, m: ReachMethod)
    requires m.kind == New
    ensures ConstructorReturn(t) == ReturnVoid <==> Signature(t, m).ret == Void
  {
  }

  /** The struct index of the first field: objects other than structs start
      with a descriptor, and actors also with their runtime header. */
  function FieldBase(k: TypeKind): (base: nat)
    ensures base <= 2
    ensures base == 0 <==> k == Struct
    ensures base == 2 <==> k == Actor
  {
    var base := if k != Struct then 1 else 0;
    if k == Actor then base + 1 else base
  }

  /** A call of an embedded field's finaliser on struct element `field`. */
  datatype FinalCall = FinalCall(fn: Symbol, field: nat)

  /** Field `i` of `t` is embedded and its type has a finaliser. */
  predicate NeedsFinaliser(t: ReachType, i: nat) {
    i < |t.fields| && t.fields[i].embed && t.fields[i].typeFinaliser.Some?
  }

  /** `c` calls the finaliser of an embedded field of `t`, on that field. */
  predicate FinalisesField(t: ReachType, c: FinalCall) {
    && FieldBase(t.underlying) <= c.field
    && NeedsFinaliser(t, c.field - FieldBase(t.underlying))
    && t.fields[c.field - FieldBase(t.underlying)].typeFinaliser == Some(c.fn)
  }

  /** `call_embed_finalisers`: call, in field order, the finaliser of every
      embedded field whose type has one, on that field's struct element. */
  method EmbedFinalisers(t: ReachType) returns (calls: seq<FinalCall>)
    ensures forall k :: 0 <= k < |calls| ==> FinalisesField(t, calls[k])
    ensures forall i :: 0 <= i < |t.fields| && NeedsFinaliser(t, i) ==>
      FinalCall(t.fields[i].typeFinaliser.value, FieldBase(t.underlying) + i) in calls
    ensures forall k, l :: 0 <= k < l < |calls| ==> calls[k].field < calls[l].field
  {
    var base := FieldBase(t.underlying);
    calls := [];
    var i := 0;
    while i < |t.fields|
      invariant 0 <= i <= |t.fields|
      invariant forall k :: 0 <= k < |calls| ==> FinalisesField(t, calls[k]) && calls[k].field < base + i
      invariant forall j :: 0 <= j < i && NeedsFinaliser(t, j) ==>
        FinalCall(t.fields[j].typeFinaliser.value, base + j) in calls
      invariant forall k, l :: 0 <= k < l < |calls| ==> calls[k].field < calls[l].field
    {
      var field := t.fields[i];
      if field.embed && field.typeFinaliser.Some? {
        var call := FinalCall(field.typeFinaliser.value, base + i);
        assert FinalisesField(t, call);
        calls := calls + [call];
      }
      i := i + 1;
    }
  }

  /** `copy_subordinate`: every method on `m`'s subordinate chain gets `m`'s
      function type and function, and nothing else about it changes. */
  method CopySubordinate(m: ReachMethod, chain: seq<ReachMethod>) returns (r: seq<ReachMethod>)
    ensures |r| == |chain|
    ensures forall i :: 0 <= i < |r| ==> r[i].funcType == m.funcType && r[i].func == m.func
    ensures forall i :: 0 <= i < |r| ==>
      r[i].(funcType := chain[i].funcType, func := chain[i].func) == chain[i]
  {
    r := [];
    var i := 0;
    while i < |chain|
      invariant 0 <= i <= |chain|
      invariant |r| == i
      invariant forall j :: 0 <= j < i ==> r[j] == chain[j].(funcType := m.funcType, func := m.func)
    {
      r := r + [chain[i].(funcType := m.funcType, func := m.func)];
      i := i + 1;
    }
  }

  /** One body lowered: the index of the method and its generator. */
  datatype Job = Job(index: nat, generator: Generator)

  /** `genfun_method_bodies` over the methods of `t` in order. `lowers` says
      whether a generator succeeds on a method (the expression lowering it
      runs is not modelled); the first failure stops the loop. */
  method GenerateBodies(t: ReachType, methods: seq<ReachMethod>, lowers: (Generator, ReachMethod) -> bool)
    returns (ok: bool, jobs: seq<Job>)
    ensures !IsConcrete(t.underlying) ==> ok && jobs == []
    ensures ok <==> forall i :: 0 <= i < |methods| ==>
      && BodyGenerator(t, methods[i]).Success?
      && (BodyGenerator(t, methods[i]).value.Some? ==>
            lowers(BodyGenerator(t, methods[i]).value.value, methods[i]))
    ensures forall k :: 0 <= k < |jobs| ==>
      && jobs[k].index < |methods|
      && BodyGenerator(t, methods[jobs[k].index]) == Success(Some(jobs[k].generator))
    ensures forall k, l :: 0 <= k < l < |jobs| ==> jobs[k].index < jobs[l].index
    ensures ok ==> forall i :: (0 <= i < |methods| && BodyGenerator(t, methods[i]).Success?
                                && BodyGenerator(t, methods[i]).value.Some?) ==>
      Job(i, BodyGenerator(t, methods[i]).value.value) in jobs
  {
    jobs := [];
    if !IsConcrete(t.underlying) {
      ok := true;
      return;
    }
    var i := 0;
    while i < |methods|
      invariant 0 <= i <= |methods|
      invariant forall j :: 0 <= j < i ==>
        && BodyGenerator(t, methods[j]).Success?
        && (BodyGenerator(t, methods[j]).value.Some? ==>
              lowers(BodyGenerator(t, methods[j]).value.value, methods[j]))
      invariant forall k :: 0 <= k < |jobs| ==>
        && jobs[k].index < i
        && BodyGenerator(t, methods[jobs[k].index]) == Success(Some(jobs[k].generator))
      invariant forall k, l :: 0 <= k < l < |jobs| ==> jobs[k].index < jobs[l].index
      invariant forall j :: 0 <= j < i && BodyGenerator(t, methods[j]).value.Some? ==>
        Job(j, BodyGenerator(t, methods[j]).value.value) in jobs
    {
      var g := BodyGenerator(t, methods[i]);
      if g.Failure? {
        ok := false;
        return;
      }
      if g.value.Some? {
        if !lowers(g.value.value, methods[i]) {
          ok := false;
          return;
        }
        jobs := jobs + [Job(i, g.value.value)];
      }
      i := i + 1;
    }
    ok := true;
  }
}
