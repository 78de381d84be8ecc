/**
 The compiler's view of reachable types and methods, as far as method
 lowering (`codegen/genfun.c`) reads it, and the shape of the LLVM types it
 builds. LLVM itself is not modelled: a type is either one of the few
 constants the lowering names or the use type of a reachable type.
 */
module Reach {
  import opened Wrappers

  /** Reference capabilities; the last six are the capability-set and
      absent tokens that may appear where a capability is expected. */
  datatype Cap = Iso | Trn | Ref | Val | Box | Tag
               | CapRead | CapSend | CapShare | CapAlias | CapAny | NoCap

  /** The `underlying` token of a reachable type. */
  datatype TypeKind = Primitive | Struct | Class | Actor
                    | UnionType | IsectType | Interface | Trait | TupleType

  /** Types that have an object layout and method bodies. */
  predicate IsConcrete(k: TypeKind) {
    k == Primitive || k == Struct || k == Class || k == Actor
  }

  /** Types that only describe other types. */
  predicate IsAbstract(k: TypeKind) {
    k == UnionType || k == IsectType || k == Interface || k == Trait
  }

  /** The token of a method's AST node; `OtherToken` is any other token. */
  datatype MethodToken = New | Be | Fun | OtherToken

  /** An embedded or plain field, with the finaliser of its type (if any). */
  datatype Field = Field(embed: bool, typeFinaliser: Option<Symbol>)

  /** A reachable type. `pointerUse` says whether its LLVM use type is a
      pointer; `machineWord` says whether it is lowered to an LLVM primitive
      (`t->primitive != NULL`); `traceNeeded` is the answer of
      `gentrace_needed` for it. */
  datatype ReachType = ReachType(
    name: string,
    underlying: TypeKind,
    pointerUse: bool,
    machineWord: bool,
    traceNeeded: bool,
    fields: seq<Field>)

  /** A declared parameter: its type and capability. */
  datatype Param = Param(ty: ReachType, cap: Cap)

  /** An LLVM function symbol: a method's own name, or the sender that
      `genname_be` derives from it. */
  datatype Symbol = Named(fullName: string) | Sender(fullName: string)

  /** The LLVM types the lowering uses. */
  datatype LlType = Void | I32 | VoidPtr | UseType(of: ReachType)

  predicate IsPointer(l: LlType) {
    l.VoidPtr? || (l.UseType? && l.of.pointerUse)
  }

  /** An LLVM function type. */
  datatype FnType = FnType(ret: LlType, params: seq<LlType>)

  /** A reachable method. `funcType` and `func` are filled in by prototype
      generation and shared along the subordinate chain. */
  datatype ReachMethod = ReachMethod(
    name: string,
    fullName: string,
    kind: MethodToken,
    cap: Cap,
    params: seq<Param>,
    result: ReachType,
    intrinsic: bool,
    forwarding: bool,
    vtableIndex: nat,
    funcType: Option<FnType>,
    func: Option<Symbol>)

  /** A fatal assertion in the code generator. */
  datatype Fault = UnexpectedCap(cap: Cap) | UnexpectedType(kind: TypeKind)
                 | UnexpectedMethod | FinaliserTwice | NoFinaliserFunction
}
