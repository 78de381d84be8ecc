/**
 The LLVM parameter attributes that `genfun_param_attrs` derives from
 reference capabilities: a unique (`iso`) pointer cannot alias, immutable and
 opaque (`val`, `tag`) pointers can neither alias a writable pointer nor be
 written through, and a `box` pointer is not written through.
 */
module ParamAttributes {
  import opened Wrappers
  import opened Reach

  datatype Attr = NoAlias | ReadOnly

  /** An attribute added at an LLVM attribute index (0 is the return value,
      `i + 1` is parameter `i`). */
  datatype AttrAt = AttrAt(index: nat, attr: Attr)

  /** The attributes a pointer of capability `cap` gets, in the order they
      are added; any token that is not a concrete capability is a fatal
      assertion. */
  function CapAttrs(cap: Cap): (r: Result<seq<Attr>, Fault>)
    ensures r.Failure? <==> !(cap in {Iso, Trn, Ref, Val, Box, Tag})
    ensures r.Failure? ==> r.error == UnexpectedCap(cap)
    ensures r.Success? ==> (NoAlias in r.value <==> cap == Iso || cap == Val || cap == Tag)
    ensures r.Success? ==> (ReadOnly in r.value <==> cap == Val || cap == Tag || cap == Box)
    ensures r.Success? ==> forall i, j :: 0 <= i < j < |r.value| ==>
      r.value[i] == NoAlias && r.value[j] == ReadOnly
  {
    match cap
    case Iso => Success([NoAlias])
    case Trn => Success([])
    case Ref => Success([])
    case Val => Success([NoAlias, ReadOnly])
    case Tag => Success([NoAlias, ReadOnly])
    case Box => Success([ReadOnly])
    case _ => Failure(UnexpectedCap(cap))
  }

  /** The reachable type behind LLVM parameter `i`: the receiver's type for
      the first, the declared parameter's type for the rest. */
  function SlotType(t: ReachType, m: ReachMethod, i: nat): ReachType
    requires i <= |m.params|
  {
    if i == 0 then t else m.params[i - 1].ty
  }

  /** The capability behind LLVM parameter `i`: the method's own capability
      for the receiver, the declared capability for the rest. */
  function SlotCap(m: ReachMethod, i: nat): Cap
    requires i <= |m.params|
  {
    if i == 0 then m.cap else m.params[i - 1].cap
  }

  /** The attributes LLVM parameter `i` of a function of `m` gets. */
  function SlotAttrs(t: ReachType, m: ReachMethod, fnParams: seq<LlType>, i: nat): (r: Result<seq<Attr>, Fault>)
    requires |fnParams| == |m.params| + 1
    requires i < |fnParams|
    ensures !IsPointer(fnParams[i]) ==> r == Success([])
    ensures i == 0 && m.kind == New ==> r == Success([])
    ensures SlotType(t, m, i).underlying == Actor ==> r == Success([])
    ensures IsPointer(fnParams[i]) && !(i == 0 && m.kind == New) && SlotType(t, m, i).underlying != Actor ==>
      r == CapAttrs(SlotCap(m, i))
  {
    if !IsPointer(fnParams[i]) then Success([])
    else if i == 0 && m.kind == New then Success([])
    else if SlotType(t, m, i).underlying == Actor then Success([])
    else CapAttrs(SlotCap(m, i))
  }

  /** Tag each attribute with one attribute index. */
  function At(index: nat, attrs: seq<Attr>): (r: seq<AttrAt>)
    ensures |r| == |attrs|
    ensures forall k :: 0 <= k < |r| ==> r[k] == AttrAt(index, attrs[k])
  {
    seq(|attrs|, k requires 0 <= k < |attrs| => AttrAt(index, attrs[k]))
  }

  /** `genfun_param_attrs` from LLVM parameter `from` onward: the attributes
      added to a function whose parameter types are `fnParams`, in the order
      they are added, or the first fatal assertion. */
  function ParamAttrs(t: ReachType, m: ReachMethod, fnParams: seq<LlType>, from: nat): (r: Result<seq<AttrAt>, Fault>)
    requires |fnParams| == |m.params| + 1
    requires from <= |fnParams|
    ensures r.Success? <==>
      forall j :: from <= j < |fnParams| ==> SlotAttrs(t, m, fnParams, j).Success?
    ensures r.Failure? ==>
      exists j :: && from <= j < |fnParams|
                  && SlotAttrs(t, m, fnParams, j) == Failure(r.error)
                  && forall j' :: from <= j' < j ==> SlotAttrs(t, m, fnParams, j').Success?
    decreases |fnParams| - from
  {
    if from == |fnParams| then Success([])
    else
      var here :- SlotAttrs(t, m, fnParams, from);
      var rest :- ParamAttrs(t, m, fnParams, from + 1);
      Success(At(from + 1, here) + rest)
  }

  /** Every attribute `genfun_param_attrs` adds sits at index `i + 1` of an
      LLVM parameter `i` whose own attributes include it. */
  lemma {:induction false} ParamAttrsSound(t: ReachType, m: ReachMethod, fnParams: seq<LlType>, from: nat)
    requires |fnParams| == |m.params| + 1
    requires from <= |fnParams|
    requires ParamAttrs(t, m, fnParams, from).Success?
    ensures var attrs := ParamAttrs(t, m, fnParams, from).value;
      forall k :: 0 <= k < |attrs| ==>
        && from + 1 <= attrs[k].index <= |fnParams|
        && attrs[k].attr in SlotAttrs(t, m, fnParams, attrs[k].index - 1).value
    decreases |fnParams| - from
  {
    if from < |fnParams| {
      var here := SlotAttrs(t, m, fnParams, from).value;
      ParamAttrsSound(t, m, fnParams, from + 1);
      var rest := ParamAttrs(t, m, fnParams, from + 1).value;
      var attrs := ParamAttrs(t, m, fnParams, from).value;
      var tagged := At(from + 1, here);
      assert attrs == tagged + rest;
      forall k | 0 <= k < |attrs|
        ensures from + 1 <= attrs[k].index <= |fnParams|
        ensures attrs[k].attr in SlotAttrs(t, m, fnParams, attrs[k].index - 1).value
      {
        if k < |tagged| {
          assert attrs[k] == AttrAt(from + 1, here[k]);
        } else {
          assert attrs[k] == rest[k - |tagged|];
        }
      }
    }
  }

  /** Every attribute of every LLVM parameter `i` is added, at index `i + 1`. */
  lemma {:induction false} ParamAttrsComplete(t: ReachType, m: ReachMethod, fnParams: seq<LlType>, from: nat)
    requires |fnParams| == |m.params| + 1
    requires from <= |fnParams|
    requires ParamAttrs(t, m, fnParams, from).Success?
    ensures var attrs := ParamAttrs(t, m, fnParams, from).value;
      forall j, a :: from <= j < |fnParams| && a in SlotAttrs(t, m, fnParams, j).value ==>
        AttrAt(j + 1, a) in attrs
    decreases |fnParams| - from
  {
    if from < |fnParams| {
      var here := SlotAttrs(t, m, fnParams, from).value;
      ParamAttrsComplete(t, m, fnParams, from + 1);
      var rest := ParamAttrs(t, m, fnParams, from + 1).value;
      var attrs := ParamAttrs(t, m, fnParams, from).value;
      var tagged := At(from + 1, here);
      assert attrs == tagged + rest;
      forall j, a | from <= j < |fnParams| && a in SlotAttrs(t, m, fnParams, j).value
        ensures AttrAt(j + 1, a) in attrs
      {
        if j == from {
          var k :| 0 <= k < |here| && here[k] == a;
          assert attrs[k] == AttrAt(j + 1, a);
        } else {
          assert AttrAt(j + 1, a) in rest;
        }
      }
    }
  }

  /** Parameters are annotated in order of their index. */
  lemma {:induction false} ParamAttrsOrdered(t: ReachType, m: ReachMethod, fnParams: seq<LlType>, from: nat)
    requires |fnParams| == |m.params| + 1
    requires from <= |fnParams|
    requires ParamAttrs(t, m, fnParams, from).Success?
    ensures var attrs := ParamAttrs(t, m, fnParams, from).value;
      forall k, l :: 0 <= k < l < |attrs| ==> attrs[k].index <= attrs[l].index
    decreases |fnParams| - from
  {
    if from < |fnParams| {
      var here := SlotAttrs(t, m, fnParams, from).value;
      ParamAttrsOrdered(t, m, fnParams, from + 1);
      ParamAttrsSound(t, m, fnParams, from + 1);
      var rest := ParamAttrs(t, m, fnParams, from + 1).value;
      var attrs := ParamAttrs(t, m, fnParams, from).value;
      var tagged := At(from + 1, here);
      assert attrs == tagged + rest;
      forall k, l | 0 <= k < l < |attrs|
        ensures attrs[k].index <= attrs[l].index
      {
        if l < |tagged| {
          assert attrs[k] == tagged[k] && attrs[l] == tagged[l];
        } else if k < |tagged| {
          assert attrs[k] == tagged[k] && attrs[l] == rest[l - |tagged|];
        } else {
          assert attrs[k] == rest[k - |tagged|] && attrs[l] == rest[l - |tagged|];
        }
      }
    }
  }
}
