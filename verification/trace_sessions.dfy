/**
 Sequences of traversal-context operations. A session is one traversal: a
 start, the nodes and acquire intents the strategies record while tracing,
 and a completion. The lemmas here show that traversals never nest, that the
 strategy pair stays coherent, and that completions lose no pending node and
 no pending acquire.
 */
module TraceSessions {
  import opened Wrappers
  import opened TraceContext

  /** One operation on the context. `Defer` and `Intend` stand for what the
      strategies (which live in gc.c) do to the context while tracing: push a
      node on the work stack, record an actor in the acquire outbox. */
  datatype Op = Begin(mode: Mode) | Close(c: Completion) | Defer(p: Ptr) | Intend(a: ActorId)

  function Exec(b: Build, ctx: Ctx, op: Op): Result<Ctx, Fault> {
    match op
    case Begin(mode) => Start(b, ctx, mode)
    case Close(c) => Success(Complete(b, ctx, c))
    case Defer(p) => Success(ctx.(stack := ctx.stack + [p]))
    case Intend(a) => Success(ctx.(acquire := ctx.acquire + [a]))
  }

  /** Run operations in order, stopping at the first fault. */
  function Run(b: Build, ctx: Ctx, ops: seq<Op>): Result<Ctx, Fault>
    decreases |ops|
  {
    if ops == [] then Success(ctx)
    else match Exec(b, ctx, ops[0])
      case Failure(e) => Failure(e)
      case Success(next) => Run(b, next, ops[1..])
  }

  /** Running a concatenation runs the first part, then the second. */
  lemma {:induction false} RunAppend(b: Build, ctx: Ctx, xs: seq<Op>, ys: seq<Op>)
    ensures Run(b, ctx, xs + ys) ==
      match Run(b, ctx, xs)
      case Failure(e) => Failure(e)
      case Success(mid) => Run(b, mid, ys)
    decreases |xs|
  {
    if xs == [] {
      assert xs + ys == ys;
    } else {
      assert (xs + ys)[0] == xs[0];
      assert (xs + ys)[1..] == xs[1..] + ys;
      match Exec(b, ctx, xs[0])
      case Failure(e) =>
      case Success(next) => RunAppend(b, next, xs[1..], ys);
    }
  }

  /** No sequence of operations separates the object strategy from the actor
      strategy of its mode. */
  lemma {:induction false} RunPreservesCoherence(b: Build, ctx: Ctx, ops: seq<Op>)
    requires Coherent(ctx)
    ensures Run(b, ctx, ops).Success? ==> Coherent(Run(b, ctx, ops).value)
    decreases |ops|
  {
    if ops != [] {
      match Exec(b, ctx, ops[0])
      case Failure(e) =>
      case Success(next) =>
        assert Coherent(next);
        RunPreservesCoherence(b, next, ops[1..]);
    }
  }

  /** Starting a second traversal while the first has a pending node is a
      fatal assertion: traversals never nest. */
  lemma NestedStartFaults(b: Build, ctx: Ctx, first: Mode, p: Ptr, second: Mode)
    requires Start(b, ctx, first).Success?
    requires !StartCompiledOut(b, second)
    ensures Run(b, ctx, [Begin(first), Defer(p), Begin(second)]) == Failure(StackNotEmpty)
  {
    var ops := [Begin(first), Defer(p), Begin(second)];
    var c1 := Start(b, ctx, first).value;
    var c2 := c1.(stack := c1.stack + [p]);
    assert ops[1..] == [Defer(p), Begin(second)];
    assert ops[1..][1..] == [Begin(second)];
    assert Run(b, ctx, ops) == Run(b, c1, ops[1..]);
    assert Run(b, c1, ops[1..]) == Run(b, c2, [Begin(second)]);
    assert c2.stack != [];
  }

  /** The nodes a single step drains. */
  function StepNodes(x: GcStep): seq<Ptr> {
    if x.HandleStack? then x.drained else []
  }

  /** The actors a single step sends. */
  function StepSent(x: GcStep): seq<ActorId> {
    match x
    case SendAcquire(sent) => sent
    case SendReleaseManual(sent) => sent
    case _ => []
  }

  /** The nodes drained by the HandleStack steps of a log, in order. */
  function Drained(log: seq<GcStep>): seq<Ptr> {
    if log == [] then []
    else StepNodes(log[0]) + Drained(log[1..])
  }

  /** The actors sent by the outbox flushes of a log, in order. */
  function Flushed(log: seq<GcStep>): seq<ActorId> {
    if log == [] then []
    else StepSent(log[0]) + Flushed(log[1..])
  }

  lemma {:induction false} DrainedAppend(xs: seq<GcStep>, ys: seq<GcStep>)
    ensures Drained(xs + ys) == Drained(xs) + Drained(ys)
    decreases |xs|
  {
    if xs == [] {
      assert xs + ys == ys;
    } else {
      assert (xs + ys)[1..] == xs[1..] + ys;
      DrainedAppend(xs[1..], ys);
    }
  }

  lemma {:induction false} FlushedAppend(xs: seq<GcStep>, ys: seq<GcStep>)
    ensures Flushed(xs + ys) == Flushed(xs) + Flushed(ys)
    decreases |xs|
  {
    if xs == [] {
      assert xs + ys == ys;
    } else {
      assert (xs + ys)[1..] == xs[1..] + ys;
      FlushedAppend(xs[1..], ys);
    }
  }

  lemma Snoc(log: seq<GcStep>, x: GcStep)
    ensures Drained(log + [x]) == Drained(log) + StepNodes(x)
    ensures Flushed(log + [x]) == Flushed(log) + StepSent(x)
  {
    DrainedAppend(log, [x]);
    FlushedAppend(log, [x]);
    assert [x][1..] == [];
  }

  /** No node or actor leaves the context without being recorded in the log:
      the pending nodes plus the drained ones, and the pending actors plus the
      sent ones, are the same before and after. */
  predicate Conserved(before: Ctx, after: Ctx) {
    && Drained(after.log) + after.stack == Drained(before.log) + before.stack
    && Flushed(after.log) + after.acquire == Flushed(before.log) + before.acquire
  }

  lemma DrainStackConserves(ctx: Ctx)
    ensures Conserved(ctx, DrainStack(ctx))
  {
    Snoc(ctx.log, HandleStack(ctx.stack));
    assert ctx.acquire + [] == ctx.acquire;
  }

  lemma FlushAcquireConserves(ctx: Ctx)
    ensures Conserved(ctx, FlushAcquire(ctx))
  {
    Snoc(ctx.log, SendAcquire(ctx.acquire));
    assert ctx.stack + [] == ctx.stack;
  }

  lemma FlushReleaseConserves(ctx: Ctx)
    ensures Conserved(ctx, FlushRelease(ctx))
  {
    Snoc(ctx.log, SendReleaseManual(ctx.acquire));
    assert ctx.stack + [] == ctx.stack;
  }

  /** A step that only logs an event for the current actor. */
  lemma LogOnlyConserves(ctx: Ctx, x: GcStep)
    requires x.MarkImmutable? || x.Sweep? || x.GcDone?
    ensures Conserved(ctx, ctx.(log := ctx.log + [x]))
  {
    Snoc(ctx.log, x);
  }

  /** Every completion conserves pending work: whatever it drains from the
      stack or removes from the outbox is in the log. */
  lemma CompletionConserves(b: Build, ctx: Ctx, c: Completion)
    ensures Conserved(ctx, Complete(b, ctx, c))
  {
    match c
    case MarkDone =>
      var c1 := MarkShared(ctx);
      var c2 := DrainStack(c1);
      var c3 := FlushAcquire(c2);
      var c4 := SweepHeap(c3);
      LogOnlyConserves(ctx, MarkImmutable(ctx.current));
      DrainStackConserves(c1);
      FlushAcquireConserves(c2);
      LogOnlyConserves(c3, Sweep(c3.current));
      LogOnlyConserves(c4, GcDone(c4.current));
    case ReleaseDone =>
      var c1 := DrainStack(ctx);
      var c2 := FlushRelease(c1);
      DrainStackConserves(ctx);
      FlushReleaseConserves(c1);
      LogOnlyConserves(c2, GcDone(c2.current));
    case SendDone =>
      if !b.nogc {
        var c1 := DrainStack(ctx);
        var c2 := FlushAcquire(c1);
        DrainStackConserves(ctx);
        FlushAcquireConserves(c1);
        LogOnlyConserves(c2, GcDone(c2.current));
      }
    case AcquireDone =>
      var c1 := DrainStack(ctx);
      var c2 := FlushAcquire(c1);
      DrainStackConserves(ctx);
      FlushAcquireConserves(c1);
      LogOnlyConserves(c2, GcDone(c2.current));
    case RecvDone =>
      if !b.nogc {
        var c1 := DrainStack(ctx);
        DrainStackConserves(ctx);
        LogOnlyConserves(c1, GcDone(c1.current));
      }
    case SendNext =>
      var c1 := DrainStack(ctx);
      DrainStackConserves(ctx);
      LogOnlyConserves(c1, GcDone(c1.current));
  }

  function Defers(ps: seq<Ptr>): (ops: seq<Op>)
    ensures |ops| == |ps|
  {
    seq(|ps|, i requires 0 <= i < |ps| => Defer(ps[i]))
  }

  function Intents(xs: seq<ActorId>): (ops: seq<Op>)
    ensures |ops| == |xs|
  {
    seq(|xs|, i requires 0 <= i < |xs| => Intend(xs[i]))
  }

  lemma {:induction false} RunDefers(b: Build, ctx: Ctx, ps: seq<Ptr>)
    ensures Run(b, ctx, Defers(ps)) == Success(ctx.(stack := ctx.stack + ps))
    decreases |ps|
  {
    if ps == [] {
      assert ctx.stack + ps == ctx.stack;
    } else {
      assert Defers(ps)[0] == Defer(ps[0]);
      assert Defers(ps)[1..] == Defers(ps[1..]);
      var next := ctx.(stack := ctx.stack + [ps[0]]);
      RunDefers(b, next, ps[1..]);
      assert next.stack + ps[1..] == ctx.stack + ps;
    }
  }

  lemma {:induction false} RunIntents(b: Build, ctx: Ctx, xs: seq<ActorId>)
    ensures Run(b, ctx, Intents(xs)) == Success(ctx.(acquire := ctx.acquire + xs))
    decreases |xs|
  {
    if xs == [] {
      assert ctx.acquire + xs == ctx.acquire;
    } else {
      assert Intents(xs)[0] == Intend(xs[0]);
      assert Intents(xs)[1..] == Intents(xs[1..]);
      var next := ctx.(acquire := ctx.acquire + [xs[0]]);
      RunIntents(b, next, xs[1..]);
      assert next.acquire + xs[1..] == ctx.acquire + xs;
    }
  }

  /** One traversal: its mode, the nodes and acquires its strategies record,
      and the completion that closes it. */
  datatype Session = Session(mode: Mode, deferred: seq<Ptr>, intents: seq<ActorId>, close: Completion)

  function SessionOps(s: Session): seq<Op> {
    [Begin(s.mode)] + (Defers(s.deferred) + (Intents(s.intents) + [Close(s.close)]))
  }

  function SessionsOps(ss: seq<Session>): seq<Op> {
    if ss == [] then [] else SessionOps(ss[0]) + SessionsOps(ss[1..])
  }

  function AllDeferred(ss: seq<Session>): seq<Ptr> {
    if ss == [] then [] else ss[0].deferred + AllDeferred(ss[1..])
  }

  function AllIntents(ss: seq<Session>): seq<ActorId> {
    if ss == [] then [] else ss[0].intents + AllIntents(ss[1..])
  }

  /** In a collecting build, one session started on an empty stack succeeds,
      ends with an empty stack and the session's mode installed, drains each
      of its nodes and keeps each of its acquires either sent or pending. */
  lemma RunSession(b: Build, ctx: Ctx, s: Session)
    requires !b.nogc
    requires ctx.stack == []
    ensures Run(b, ctx, SessionOps(s)).Success?
    ensures var r := Run(b, ctx, SessionOps(s)).value;
      && r.stack == []
      && r.current == ctx.current
      && ActiveMode(r) == Some(s.mode)
      && Drained(r.log) == Drained(ctx.log) + s.deferred
      && Flushed(r.log) + r.acquire == Flushed(ctx.log) + ctx.acquire + s.intents
  {
    var rest := Defers(s.deferred) + (Intents(s.intents) + [Close(s.close)]);
    var c1 := Start(b, ctx, s.mode).value;
    assert SessionOps(s)[0] == Begin(s.mode);
    assert SessionOps(s)[1..] == rest;
    assert Run(b, ctx, SessionOps(s)) == Run(b, c1, rest);
    RunAppend(b, c1, Defers(s.deferred), Intents(s.intents) + [Close(s.close)]);
    RunDefers(b, c1, s.deferred);
    var c2 := c1.(stack := c1.stack + s.deferred);
    RunAppend(b, c2, Intents(s.intents), [Close(s.close)]);
    RunIntents(b, c2, s.intents);
    var c3 := c2.(acquire := c2.acquire + s.intents);
    assert Run(b, c3, [Close(s.close)]) == Success(Complete(b, c3, s.close)) by {
      assert [Close(s.close)][1..] == [];
    }
    assert c3.stack == s.deferred;
    CompletionConserves(b, c3, s.close);
    assert Complete(b, c3, s.close).stack == [];
  }

  /** `after` accounts for everything pending in `before` plus `nodes` and
      `intents`: each is either still pending or recorded in the log. */
  predicate Accounts(before: Ctx, after: Ctx, nodes: seq<Ptr>, intents: seq<ActorId>) {
    && Drained(after.log) + after.stack == Drained(before.log) + before.stack + nodes
    && Flushed(after.log) + after.acquire == Flushed(before.log) + before.acquire + intents
  }

  lemma AccountsChain(a: Ctx, b: Ctx, c: Ctx, n1: seq<Ptr>, i1: seq<ActorId>, n2: seq<Ptr>, i2: seq<ActorId>)
    requires Accounts(a, b, n1, i1) && Accounts(b, c, n2, i2)
    ensures Accounts(a, c, n1 + n2, i1 + i2)
  {
    assert Drained(a.log) + a.stack + n1 + n2 == Drained(a.log) + a.stack + (n1 + n2);
    assert Flushed(a.log) + a.acquire + i1 + i2 == Flushed(a.log) + a.acquire + (i1 + i2);
  }

  /** In a collecting build, any sequence of sessions started on an empty
      stack never faults, ends with an empty stack, drains every node the
      strategies deferred, in order, and loses no acquire intent. */
  lemma {:induction false} SessionsNeverNest(b: Build, ctx: Ctx, ss: seq<Session>)
    requires !b.nogc
    requires ctx.stack == []
    ensures Run(b, ctx, SessionsOps(ss)).Success?
    ensures var r := Run(b, ctx, SessionsOps(ss)).value;
      && r.stack == []
      && r.current == ctx.current
      && (ss != [] ==> ActiveMode(r) == Some(ss[|ss| - 1].mode))
      && Accounts(ctx, r, AllDeferred(ss), AllIntents(ss))
    decreases |ss|
  {
    if ss == [] {
      assert Drained(ctx.log) + ctx.stack + [] == Drained(ctx.log) + ctx.stack;
      assert Flushed(ctx.log) + ctx.acquire + [] == Flushed(ctx.log) + ctx.acquire;
    } else {
      RunAppend(b, ctx, SessionOps(ss[0]), SessionsOps(ss[1..]));
      RunSession(b, ctx, ss[0]);
      var mid := Run(b, ctx, SessionOps(ss[0])).value;
      assert Accounts(ctx, mid, ss[0].deferred, ss[0].intents) by {
        assert mid.stack == [] && ctx.stack == [];
        assert Drained(mid.log) + [] == Drained(mid.log);
        assert Drained(ctx.log) + [] == Drained(ctx.log);
      }
      SessionsNeverNest(b, mid, ss[1..]);
      var r := Run(b, mid, SessionsOps(ss[1..])).value;
      assert Run(b, ctx, SessionsOps(ss)) == Run(b, mid, SessionsOps(ss[1..]));
      AccountsChain(ctx, mid, r, ss[0].deferred, ss[0].intents, AllDeferred(ss[1..]), AllIntents(ss[1..]));
      if ss[1..] == [] {
        assert |ss| == 1;
      } else {
        assert ss[1..][|ss[1..]| - 1] == ss[|ss| - 1];
      }
    }
  }
}
