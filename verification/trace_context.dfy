/**
 A model of the runtime's traversal context (`pony_ctx_t`) and of the
 operations in `gc/trace.c` that drive it: the five traversal starts, the six
 completions and the three trace entry points called by generated code.

 The context is an immutable record. The collector steps that live in `gc.c`
 are not modelled internally; each is an event appended to the context's log,
 with the one effect the completions rely on (draining the stack, flushing the
 acquire outbox).
 */
module TraceContext {
  import opened Wrappers

  /** The traversal modes; each one owns a pair of strategy functions. */
  datatype Mode = Send | Recv | Mark | Acquire | Release

  /** The object strategies `ponyint_gc_<mode>object`. */
  datatype ObjectFn = SendObject | RecvObject | MarkObject | AcquireObject | ReleaseObject

  /** The actor strategies `ponyint_gc_<mode>actor`. */
  datatype ActorFn = SendActor | RecvActor | MarkActor | AcquireActor | ReleaseActor

  /** The mode an object strategy belongs to. */
  function ObjectFnMode(f: ObjectFn): Mode {
    match f
    case SendObject => Send
    case RecvObject => Recv
    case MarkObject => Mark
    case AcquireObject => Acquire
    case ReleaseObject => Release
  }

  /** The mode an actor strategy belongs to. */
  function ActorFnMode(f: ActorFn): Mode {
    match f
    case SendActor => Send
    case RecvActor => Recv
    case MarkActor => Mark
    case AcquireActor => Acquire
    case ReleaseActor => Release
  }

  /** The object strategy a start installs for `mode`. */
  function ObjectFnOf(mode: Mode): (f: ObjectFn)
    ensures ObjectFnMode(f) == mode
    ensures forall g: ObjectFn :: ObjectFnMode(g) == mode ==> g == f
  {
    match mode
    case Send => SendObject
    case Recv => RecvObject
    case Mark => MarkObject
    case Acquire => AcquireObject
    case Release => ReleaseObject
  }

  /** The actor strategy a start installs for `mode`. */
  function ActorFnOf(mode: Mode): (f: ActorFn)
    ensures ActorFnMode(f) == mode
    ensures forall g: ActorFn :: ActorFnMode(g) == mode ==> g == f
  {
    match mode
    case Send => SendActor
    case Recv => RecvActor
    case Mark => MarkActor
    case Acquire => AcquireActor
    case Release => ReleaseActor
  }

  type Ptr = nat
  type ActorId = nat

  /** The part of a type descriptor (`pony_type_t`) the classification reads:
      `dispatch` is present exactly for actor types. */
  datatype TypeDesc = TypeDesc(id: nat, dispatch: Option<nat>)

  /** Mutability flags passed to the object strategy. */
  const TRACE_MUTABLE: int := 0
  const TRACE_IMMUTABLE: int := 1
  const TRACE_OPAQUE: int := 2

  /** Build configuration: `nogc` is the `NOGC` compile-time switch. */
  datatype Build = Build(nogc: bool)

  /** One opaque collector step from `gc.c`, as recorded in the log. */
  datatype GcStep =
    | HandleStack(drained: seq<Ptr>)
    | SendAcquire(sent: seq<ActorId>)
    | SendReleaseManual(sent: seq<ActorId>)
    | MarkImmutable(actor: ActorId)
    | Sweep(actor: ActorId)
    | GcDone(actor: ActorId)

  /** The traversal context: the actor being run, the installed strategy pair
      (`None` is a NULL function pointer), the pending work stack, the
      batched acquire outbox and the log of collector steps taken so far. */
  datatype Ctx = Ctx(
    current: ActorId,
    traceObject: Option<ObjectFn>,
    traceActor: Option<ActorFn>,
    stack: seq<Ptr>,
    acquire: seq<ActorId>,
    log: seq<GcStep>)

  /** A fatal assertion or crash in the runtime. */
  datatype Fault = StackNotEmpty | NullStrategy

  /** The two strategies are both unset, or both set from one mode. */
  predicate Coherent(ctx: Ctx) {
    || (ctx.traceObject.None? && ctx.traceActor.None?)
    || (&& ctx.traceObject.Some? && ctx.traceActor.Some?
        && ObjectFnMode(ctx.traceObject.value) == ActorFnMode(ctx.traceActor.value))
  }

  /** The mode whose strategies are installed, if the pair is coherent and set. */
  function ActiveMode(ctx: Ctx): Option<Mode> {
    if ctx.traceObject.Some? && ctx.traceActor.Some?
       && ObjectFnMode(ctx.traceObject.value) == ActorFnMode(ctx.traceActor.value)
    then Some(ObjectFnMode(ctx.traceObject.value))
    else None
  }

  /** `NOGC` compiles away the body of the send and receive starts only. */
  predicate StartCompiledOut(b: Build, mode: Mode) {
    b.nogc && (mode == Send || mode == Recv)
  }

  /** `pony_gc_send`, `pony_gc_recv`, `ponyint_gc_mark`, `pony_gc_acquire` and
      `pony_gc_release`: check that no traversal is pending, then install the
      mode's strategy pair. */
  function Start(b: Build, ctx: Ctx, mode: Mode): (r: Result<Ctx, Fault>)
    ensures StartCompiledOut(b, mode) ==> r == Success(ctx)
    ensures !StartCompiledOut(b, mode) ==> (r.Failure? <==> ctx.stack != [])
    ensures r.Failure? ==> r.error == StackNotEmpty
    ensures r.Success? && !StartCompiledOut(b, mode) ==>
      && Coherent(r.value)
      && ActiveMode(r.value) == Some(mode)
    ensures r.Success? ==>
      && r.value.current == ctx.current
      && r.value.stack == ctx.stack
      && r.value.acquire == ctx.acquire
      && r.value.log == ctx.log
  {
    if StartCompiledOut(b, mode) then Success(ctx)
    else if ctx.stack != [] then Failure(StackNotEmpty)
    else Success(ctx.(traceObject := Some(ObjectFnOf(mode)),
                      traceActor := Some(ActorFnOf(mode))))
  }

  /** The completion operations. */
  datatype Completion = SendDone | RecvDone | MarkDone | AcquireDone | ReleaseDone | SendNext

  /** `NOGC` compiles away the body of the send and receive completions only. */
  predicate CompletionCompiledOut(b: Build, c: Completion) {
    b.nogc && (c == SendDone || c == RecvDone)
  }

  /** The completions that flush the outbox as acquires. */
  predicate FlushesAcquires(c: Completion) {
    c == SendDone || c == MarkDone || c == AcquireDone
  }

  // The opaque gc.c steps, with the effect each has on the context.

  /** `ponyint_gc_handlestack`: process and drain every pending node. */
  function DrainStack(ctx: Ctx): Ctx {
    ctx.(stack := [], log := ctx.log + [HandleStack(ctx.stack)])
  }

  /** `ponyint_gc_sendacquire`: send the batched acquires. */
  function FlushAcquire(ctx: Ctx): Ctx {
    ctx.(acquire := [], log := ctx.log + [SendAcquire(ctx.acquire)])
  }

  /** `ponyint_gc_sendrelease_manual`: send the batch as releases. */
  function FlushRelease(ctx: Ctx): Ctx {
    ctx.(acquire := [], log := ctx.log + [SendReleaseManual(ctx.acquire)])
  }

  /** `ponyint_gc_markimmutable` on the current actor's collector state. */
  function MarkShared(ctx: Ctx): Ctx {
    ctx.(log := ctx.log + [MarkImmutable(ctx.current)])
  }

  /** `ponyint_gc_sweep` on the current actor's collector state. */
  function SweepHeap(ctx: Ctx): Ctx {
    ctx.(log := ctx.log + [Sweep(ctx.current)])
  }

  /** `ponyint_gc_done` on the current actor's collector state. */
  function Finish(ctx: Ctx): Ctx {
    ctx.(log := ctx.log + [GcDone(ctx.current)])
  }

  /** `pony_send_done`, `pony_recv_done`, `ponyint_mark_done`,
      `pony_acquire_done`, `pony_release_done` and `pony_send_next`. */
  function Complete(b: Build, ctx: Ctx, c: Completion): (r: Ctx)
    ensures CompletionCompiledOut(b, c) ==> r == ctx
    ensures !CompletionCompiledOut(b, c) ==> r.stack == []
    ensures r.current == ctx.current
    ensures r.traceObject == ctx.traceObject && r.traceActor == ctx.traceActor
    ensures !CompletionCompiledOut(b, c) && (c == SendDone || c == AcquireDone) ==>
      r.log == ctx.log + [HandleStack(ctx.stack), SendAcquire(ctx.acquire), GcDone(ctx.current)]
    ensures c == MarkDone ==>
      r.log == ctx.log + [MarkImmutable(ctx.current), HandleStack(ctx.stack),
                          SendAcquire(ctx.acquire), Sweep(ctx.current), GcDone(ctx.current)]
    ensures c == ReleaseDone ==>
      r.log == ctx.log + [HandleStack(ctx.stack), SendReleaseManual(ctx.acquire), GcDone(ctx.current)]
    ensures !CompletionCompiledOut(b, c) && (c == RecvDone || c == SendNext) ==>
      r.log == ctx.log + [HandleStack(ctx.stack), GcDone(ctx.current)]
    ensures (c == RecvDone || c == SendNext || CompletionCompiledOut(b, c)) ==>
      r.acquire == ctx.acquire
    ensures !CompletionCompiledOut(b, c) && (FlushesAcquires(c) || c == ReleaseDone) ==>
      r.acquire == []
  {
    match c
    case SendDone =>
      if b.nogc then ctx else Finish(FlushAcquire(DrainStack(ctx)))
    case RecvDone =>
      if b.nogc then ctx else Finish(DrainStack(ctx))
    case MarkDone =>
      Finish(SweepHeap(FlushAcquire(DrainStack(MarkShared(ctx)))))
    case AcquireDone =>
      Finish(FlushAcquire(DrainStack(ctx)))
    case ReleaseDone =>
      Finish(FlushRelease(DrainStack(ctx)))
    case SendNext =>
      Finish(DrainStack(ctx))
  }

  /** The strategy call a trace entry point makes, if any. */
  datatype TraceCall =
    | NoCall
    | ObjectCall(objectFn: ObjectFn, p: Ptr, t: Option<TypeDesc>, m: int)
    | ActorCall(actorFn: ActorFn, p: Ptr)

  /** Route `p`, of descriptor `t`, to the actor strategy when `t` has a
      dispatch entry and to the object strategy otherwise. */
  function Classify(ctx: Ctx, p: Ptr, t: TypeDesc, m: int): Result<TraceCall, Fault> {
    if t.dispatch.Some? then
      if ctx.traceActor.None? then Failure(NullStrategy)
      else Success(ActorCall(ctx.traceActor.value, p))
    else
      if ctx.traceObject.None? then Failure(NullStrategy)
      else Success(ObjectCall(ctx.traceObject.value, p, Some(t), m))
  }

  /** `pony_trace`: an untyped pointer goes to the object strategy as opaque. */
  function Trace(b: Build, ctx: Ctx, p: Ptr): (r: Result<TraceCall, Fault>)
    ensures b.nogc ==> r == Success(NoCall)
    ensures !b.nogc && ctx.traceObject.Some? ==>
      r == Success(ObjectCall(ctx.traceObject.value, p, None, TRACE_OPAQUE))
    ensures !b.nogc && ctx.traceObject.None? ==> r == Failure(NullStrategy)
    ensures r.Success? ==> !r.value.ActorCall?
  {
    if b.nogc then Success(NoCall)
    else if ctx.traceObject.None? then Failure(NullStrategy)
    else Success(ObjectCall(ctx.traceObject.value, p, None, TRACE_OPAQUE))
  }

  /** `pony_traceknown`: the descriptor is supplied by the caller. */
  function TraceKnown(b: Build, ctx: Ctx, p: Ptr, t: TypeDesc, m: int): (r: Result<TraceCall, Fault>)
    ensures b.nogc ==> r == Success(NoCall)
    ensures !b.nogc && r.Success? ==> (r.value.ActorCall? <==> t.dispatch.Some?)
    ensures !b.nogc && r.Success? ==> (r.value.ObjectCall? <==> t.dispatch.None?)
    ensures r.Success? && r.value.ActorCall? ==>
      r.value.p == p && Some(r.value.actorFn) == ctx.traceActor
    ensures r.Success? && r.value.ObjectCall? ==>
      && r.value.p == p && r.value.t == Some(t) && r.value.m == m
      && Some(r.value.objectFn) == ctx.traceObject
    ensures r.Failure? <==>
      !b.nogc && (if t.dispatch.Some? then ctx.traceActor.None? else ctx.traceObject.None?)
  {
    if b.nogc then Success(NoCall) else Classify(ctx, p, t, m)
  }

  /** The descriptor stored in each object's first word. */
  type Header = map<Ptr, TypeDesc>

  /** `pony_traceunknown`: the descriptor is read from the object header. */
  function TraceUnknown(b: Build, ctx: Ctx, heap: Header, p: Ptr, m: int): (r: Result<TraceCall, Fault>)
    requires !b.nogc ==> p in heap
    ensures b.nogc ==> r == Success(NoCall)
    ensures !b.nogc ==> r == TraceKnown(b, ctx, p, heap[p], m)
  {
    if b.nogc then Success(NoCall) else Classify(ctx, p, heap[p], m)
  }

  /** Under the coherence invariant, every call a trace entry point makes goes
      to a strategy of the mode the last start installed. */
  lemma TraceCallsUseActiveMode(b: Build, ctx: Ctx, p: Ptr, t: TypeDesc, m: int)
    requires Coherent(ctx)
    ensures var s := Trace(b, ctx, p);
      s.Success? && s.value.ObjectCall? ==> ActiveMode(ctx) == Some(ObjectFnMode(s.value.objectFn))
    ensures var r := TraceKnown(b, ctx, p, t, m);
      && (r.Success? && r.value.ActorCall? ==> ActiveMode(ctx) == Some(ActorFnMode(r.value.actorFn)))
      && (r.Success? && r.value.ObjectCall? ==> ActiveMode(ctx) == Some(ObjectFnMode(r.value.objectFn)))
  {
  }

  /** After a completion that is not compiled away, every start succeeds. */
  lemma StartAfterCompletion(b: Build, ctx: Ctx, c: Completion, mode: Mode)
    requires !CompletionCompiledOut(b, c)
    ensures Start(b, Complete(b, ctx, c), mode).Success?
  {
  }
}
