# Pony runtime traversal context and method lowering, in Dafny

This project models two small pieces of sequential decision logic from the
Pony compiler and runtime, and proves properties of them.

**The runtime's traversal context** (`src/libponyrt/gc/trace.c`). A garbage
collection traversal runs in one of five modes: send, receive, mark, acquire
or release. Each mode installs a pair of strategy functions in the scheduler
context `pony_ctx_t`: one for plain objects and one for actors. The generated
trace code then calls back through three entry points. `pony_trace`,
`pony_traceknown` and `pony_traceunknown` send each pointer to the actor
strategy or to the object strategy. The choice depends only on whether the
type descriptor has a dispatch function. A completion (`pony_send_done`,
`ponyint_mark_done`, …) closes the traversal with a fixed sequence of
collector steps: it drains the work stack, flushes the batched acquires or
releases, marks immutable objects, sweeps, and finishes.

In the model the context is an immutable record: the current actor, the two
strategies, the work stack, the acquire outbox and a log. The collector steps
in `gc.c` are opaque events appended to the log. Each step has only the
effect the completions rely on: `ponyint_gc_handlestack` empties the stack,
and `ponyint_gc_sendacquire` and `ponyint_gc_sendrelease_manual` empty the
outbox. The `NOGC` build switch is the `Build.nogc` parameter. A failed
`assert` is a `Failure` result. A call through a NULL strategy pointer is a
`NullStrategy` failure.

**The compiler's method lowering** (`src/libponyc/codegen/genfun.c`). This
part covers the decisions that pick what LLVM declarations and code a
reachable method gets:

- the capability → parameter-attribute table;
- the function signature;
- whether a method gets a sender/handler pair, a plain function, or a
  message type only;
- the message struct layout and the fields the dispatch case loads back;
- when a dispatch case wraps receive tracing around the handler call;
- the struct indices of embedded-field finalisers;
- the choice of body generator;
- what a constructor returns;
- how a function is shared along a subordinate chain.

LLVM is modelled only as data. A type is `Void`, `I32`, `VoidPtr` or the use
type of a reachable type. A function is its symbol, its type and the
attributes it is given.

Files: `wrappers.dfy` (Option, Result), `trace_context.dfy` and
`trace_sessions.dfy` (trace.c), and `reach.dfy`, `param_attrs.dfy`,
`prototype.dfy`, `dispatch.dfy`, `method_bodies.dfy` (genfun.c).

## Model

| member | source | states |
|---|---|---|
| TraceContext.ObjectFnOf | src/libponyrt/gc/trace.c:9-60 | the object strategy a start installs belongs to that start's mode, and it is the only object strategy of that mode |
| TraceContext.ActorFnOf | src/libponyrt/gc/trace.c:9-60 | the actor strategy a start installs belongs to that start's mode, and it is the only actor strategy of that mode |
| TraceContext.Start | src/libponyrt/gc/trace.c:9-60 | every start fails an assertion exactly when the work stack is non-empty; on success it installs an object/actor pair of its own mode (so the context's active mode is that mode), and changes nothing else; with NOGC the send and receive starts do nothing, not even the check |
| TraceContext.Complete | src/libponyrt/gc/trace.c:62-120 | the exact step order of each completion: send/acquire done drain → flush acquires → done; mark done marks immutable → drain → flush acquires → sweep → done; release done flushes releases instead; receive done and send-next drain → done and keep the outbox; every completion leaves the stack empty and the strategies in place; with NOGC the send and receive completions change nothing |
| TraceContext.Trace | src/libponyrt/gc/trace.c:122-129 | `pony_trace` always calls the object strategy with the same pointer, no descriptor and the opaque flag, and never the actor strategy; with NOGC it makes no call |
| TraceContext.TraceKnown | src/libponyrt/gc/trace.c:131-143 | the actor strategy is called iff the descriptor has a dispatch entry; otherwise the object strategy gets the same pointer, descriptor and mutability, unchanged; it fails only when the chosen strategy is unset; with NOGC it makes no call |
| TraceContext.TraceUnknown | src/libponyrt/gc/trace.c:145-159 | reads the descriptor from the object's header and then behaves exactly as `pony_traceknown` with that descriptor |
| TraceContext.TraceCallsUseActiveMode | src/libponyrt/gc/trace.c:122-143 | when the strategy pair is coherent, every call `pony_trace` or `pony_traceknown` makes goes to a strategy of the installed mode; `pony_traceunknown` is covered through TraceUnknown, which equals `pony_traceknown` on the header descriptor |
| TraceContext.StartAfterCompletion | src/libponyrt/gc/trace.c:62-120 | after any completion that is not compiled away, every start passes its empty-stack assertion |
| TraceSessions.RunPreservesCoherence | src/libponyrt/gc/trace.c:9-60 | no sequence of starts, completions and tracing effects leaves the object and actor strategies from different modes |
| TraceSessions.NestedStartFaults | src/libponyrt/gc/trace.c:14-14 | a second start while the first traversal still has a node on its stack fails the assertion, so traversals never nest |
| TraceSessions.CompletionConserves | src/libponyrt/gc/trace.c:62-120 | no completion loses work: every node it removes from the stack, and every actor it removes from the outbox, appears in the log's drain and flush events |
| TraceSessions.RunSession | src/libponyrt/gc/trace.c:9-120 | in a collecting build, a start → tracing → completion session on an empty stack succeeds, ends with an empty stack and its own mode installed, drains its nodes and keeps each acquire either sent or pending |
| TraceSessions.SessionsNeverNest | src/libponyrt/gc/trace.c:9-120 | in a collecting build, any sequence of sessions from an empty stack never faults, ends with an empty stack and the last session's mode installed, drains every deferred node in order, and loses no acquire intent |
| ParamAttributes.CapAttrs | src/libponyc/codegen/genfun.c:621-654 | iso → noalias; val and tag → noalias then readonly; box → readonly; trn and ref → nothing; noalias exactly for iso/val/tag and readonly exactly for val/tag/box; any other capability is a fatal assertion |
| ParamAttributes.SlotAttrs | src/libponyc/codegen/genfun.c:605-656 | a parameter gets no attributes if it is not a pointer, is a constructor's receiver or has an actor type; otherwise it gets the capability table's attributes for the receiver's method cap (slot 0) or its declared cap |
| ParamAttributes.ParamAttrs | src/libponyc/codegen/genfun.c:590-660 | the annotation of a whole function succeeds iff every parameter's capability has a rule, and otherwise stops at the first parameter that has none |
| ParamAttributes.ParamAttrsSound | src/libponyc/codegen/genfun.c:605-660 | every attribute added is at index i+1 of an existing parameter i and belongs to that parameter's attributes |
| ParamAttributes.ParamAttrsComplete | src/libponyc/codegen/genfun.c:605-660 | every attribute of every parameter i is added at index i+1 |
| ParamAttributes.ParamAttrsOrdered | src/libponyc/codegen/genfun.c:605-660 | parameters are annotated in index order |
| Prototype.Signature | src/libponyc/codegen/genfun.c:67-90 | param_count+1 parameters, the receiver first and then the declared parameters in order; the result is void exactly for class constructors and the declared result otherwise |
| Prototype.MessageType | src/libponyc/codegen/genfun.c:178-206 | the message struct is `[i32, i32, void*, p1..pn]`, two longer than the signature, with declared parameter i at field i+2 |
| Prototype.Declare | src/libponyc/codegen/genfun.c:137-214 | abstract types (union, intersection, interface, trait) get a message type only; handlers (behaviours, actor constructors) of concrete types get a sender with the signature, a void handler with the same parameters, both annotated, and a message type; other methods get one annotated plain function; a concrete type's declaration fails iff the parameter annotation fails; any other type kind is a fatal assertion |
| Prototype.MakePrototype | src/libponyc/codegen/genfun.c:131-225 | intrinsic methods get nothing; any other type kind is a fatal assertion; otherwise a failed declaration fails the prototype, and a successful one makes the prototype succeed unless it is a second `_final` method (a fatal assertion) or a `_final` method without a function; on success the method's function type is its signature, and a `_final` method becomes the type's single, exported finaliser |
| Dispatch.NeedTrace | src/libponyc/codegen/genfun.c:254-267 | the scan answers true iff some parameter's type needs tracing |
| Dispatch.AddDispatchCase | src/libponyc/codegen/genfun.c:227-288 | the case is keyed by the message id; argument i (1 ≤ i < count) is loaded from field i+2; tracing is bracketed by `pony_gc_recv`…`pony_recv_done` iff some parameter needs tracing, and then every argument is traced in order with its declared type; the case ends by calling the handler with all arguments and returning void |
| Dispatch.MessageLayoutRoundTrip | src/libponyc/codegen/genfun.c:178-252 | the field the dispatch case loads argument i from lies past the header and holds exactly the type of declared parameter i, as placed in the message struct |
| Dispatch.DispatchReadsMessageLayout | src/libponyc/codegen/genfun.c:176-206 | for every declared handler, the sender and the handler take the same parameters, and the message type is built from them |
| MethodBodies.BodyGenerator | src/libponyc/codegen/genfun.c:685-749 | non-concrete types and intrinsic methods get no body; forwarding methods always use the forwarder; otherwise new on an actor → newbe, other new → new, be → be, fun → fun, any other kind is a fatal assertion |
| MethodBodies.GeneratorMatchesPrototype | src/libponyc/codegen/genfun.c:315-480 | a generator's asserted functions exist: every lowered non-forwarding method has a function, and a handler generator is chosen exactly when the prototype declared a handler |
| MethodBodies.ConstructorReturn | src/libponyc/codegen/genfun.c:406-435 | a class constructor returns void; another constructor returns `this`, except that a machine-word type returns the body's value |
| MethodBodies.ConstructorReturnMatchesSignature | src/libponyc/codegen/genfun.c:81-87 | a constructor's body returns void exactly when its signature does |
| MethodBodies.FieldBase | src/libponyc/codegen/genfun.c:293-298 | the first field index is 0 only for structs, 2 only for actors, and 1 for every other type |
| MethodBodies.EmbedFinalisers | src/libponyc/codegen/genfun.c:290-313 | exactly the embedded fields whose type has a finaliser are finalised, each on struct element base+i, in field order |
| MethodBodies.CopySubordinate | src/libponyc/codegen/genfun.c:481-491 | every method on the subordinate chain gets the head's function type and function, and nothing else about it changes |
| MethodBodies.GenerateBodies | src/libponyc/codegen/genfun.c:685-749 | lowering succeeds iff every method has a generator rule and every chosen generator succeeds; the lowered bodies are exactly the methods with a generator, in order, each with its chosen generator |

## Left out

- The internals of the `gc.c` steps (`ponyint_gc_handlestack`, `ponyint_gc_sendacquire`, `ponyint_gc_sendrelease_manual`, `ponyint_gc_markimmutable`, `ponyint_gc_sweep`, `ponyint_gc_done`) and of the per-mode strategy functions. They are foreign calls: each step is a log event with only its effect on the stack or outbox. Marking immutable objects is modelled as not pushing onto the stack.
- The strategies' effect on the context is given as two environment operations, `Defer` (push a node) and `Intend` (record an acquire). They stand for code in `gc.c`, which is not part of this model.
- TraceSessions.SessionsNeverNest: stated for the collecting build only. With NOGC the send and receive completions do not drain the stack, so a session whose strategies deferred nodes would leave them pending.
- Builds with assertions compiled out (NDEBUG) are not modelled. Every `assert` is a fatal failure, as in a debug build.
- Telemetry counters, `ponyint_cpu_tick` and DTrace probes in trace.c are instrumentation side effects.
- The remaining context fields (scheduler, finalising flag, serialisation buffer) are not read by trace.c. The declarations in `src/libponyrt/sched/scheduler.h` serve only as the shape of the context record.
- The numeric values of the mutability flags come from `pony.h`, which is not part of this model. They are three distinct constants here.
- All LLVM IR construction: builder calls, `gen_expr`, `gen_send_message`, `gen_assign_cast`, `codegen_*`, and debug information (`make_function_debug`, `name_param`, `name_params`). These are thin wrappers over an unseen library. A generator's success is a parameter of GenerateBodies.
- `genfun_allocator`, `need_primitive_call`, `primitive_call` and `genfun_primitive_calls` are outside the modelled core. The allocator depends on `LLVMABISizeOfType`.
- `genfun_method_sigs` is modelled only through the two calls it makes for each method (MakePrototype, then CopySubordinate). Its loop over the method table is not modelled.
- `genfun_forward` beyond the choice of forwarder. Its casts go through the unseen type system.
- The condition under which `genfun_fun` calls the embedded finalisers (only inside the type's own finaliser) is not modelled. EmbedFinalisers models the calls themselves.
- Prototype.MakePrototype: a `_final` method of a type that gets no function (a message-only type) is reported as a `NoFinaliserFunction` failure. The source would pass a NULL function to LLVM there.
- MethodBodies.FieldBase: struct indices are unbounded naturals. The source's 32-bit `base + i` cannot wrap for any real field count.
- The symbol `genname_be` derives for a sender is the abstract `Sender(fullName)`. The name-mangling scheme is not modelled.
- Hash-map iteration order of `reach_method_names_next` and `reach_mangled_next`: methods are given as a sequence.
- Pool allocation (`ponyint_pool_alloc_size` and `ponyint_pool_free_size`) is memory plumbing.
- The completions leave the strategy pair in place, which is what `trace.c` does.
