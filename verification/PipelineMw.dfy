/** `compose` of run/middleware/pipeline and its algebra. */
module PipelineMw {
  import opened Values
  import opened World
  import opened Components
  import opened TwoPass

  /** The middleware wrapped from the right, around the identity. */
  function Nest(ms: seq<Middleware>): Middleware {
    if ms == [] then IdentityMw else Composed(ms[0], Nest(ms[1..]))
  }

  /** The loop of `compose`: it runs backwards and wraps what it has so far. */
  method Compose(middlewares: seq<Middleware>) returns (current: Middleware)
    ensures current == Nest(middlewares)
    ensures Flatten(current) == FlattenAll(middlewares)
  {
    current := IdentityMw;
    var i := |middlewares| - 1;
    while i >= 0
      invariant -1 <= i < |middlewares|
      invariant current == Nest(middlewares[i + 1..])
    {
      assert middlewares[i..][1..] == middlewares[i + 1..];
      current := Composed(middlewares[i], current);
      i := i - 1;
    }
    assert middlewares[0..] == middlewares;
    NestFlattens(middlewares);
  }

  function FlattenAll(ms: seq<Middleware>): seq<Leaf> {
    if ms == [] then [] else Flatten(ms[0]) + FlattenAll(ms[1..])
  }

  lemma {:induction false} NestFlattens(ms: seq<Middleware>)
    ensures Flatten(Nest(ms)) == FlattenAll(ms)
  {
    if ms != [] {
      NestFlattens(ms[1..]);
    }
  }

  lemma {:induction false} FlattenAllAppend(ms: seq<Middleware>, ns: seq<Middleware>)
    ensures FlattenAll(ms + ns) == FlattenAll(ms) + FlattenAll(ns)
  {
    if ms == [] {
      assert ms + ns == ns;
    } else {
      assert (ms + ns)[1..] == ms[1..] + ns;
      FlattenAllAppend(ms[1..], ns);
    }
  }

  /** Composing a concatenation is composing the compositions. */
  lemma ComposeAppend(o: Oracle, w: Trace, ctx: Ctx, ms: seq<Middleware>, ns: seq<Middleware>, input: Value, f: Fn)
    ensures InvokeMw(o, w, ctx, Nest(ms + ns), input, f) ==
            InvokeMw(o, w, ctx, Composed(Nest(ms), Nest(ns)), input, f)
  {
    NestFlattens(ms);
    NestFlattens(ns);
    NestFlattens(ms + ns);
    FlattenAllAppend(ms, ns);
    SameLeavesSameMeaning(o, w, ctx, Nest(ms + ns), Composed(Nest(ms), Nest(ns)), input, f);
  }

  /** Composition is a monoid up to meaning, and a pipeline means what it holds. */
  lemma ComposeMonoid(
    o: Oracle, w: Trace, ctx: Ctx, a: Middleware, b: Middleware, c: Middleware, input: Value, f: Fn)
    ensures InvokeMw(o, w, ctx, Composed(IdentityMw, a), input, f) == InvokeMw(o, w, ctx, a, input, f)
    ensures InvokeMw(o, w, ctx, Composed(a, IdentityMw), input, f) == InvokeMw(o, w, ctx, a, input, f)
    ensures InvokeMw(o, w, ctx, Composed(Composed(a, b), c), input, f) ==
            InvokeMw(o, w, ctx, Composed(a, Composed(b, c)), input, f)
    ensures InvokeMw(o, w, ctx, Pipeline(a), input, f) == InvokeMw(o, w, ctx, a, input, f)
  {
    SameLeavesSameMeaning(o, w, ctx, Composed(IdentityMw, a), a, input, f);
    SameLeavesSameMeaning(o, w, ctx, Composed(a, IdentityMw), a, input, f);
    assert Flatten(Composed(Composed(a, b), c)) == Flatten(Composed(a, Composed(b, c)));
    SameLeavesSameMeaning(o, w, ctx, Composed(Composed(a, b), c), Composed(a, Composed(b, c)), input, f);
  }

  /** A fn wrapped twice is the fn wrapped once in the composition (run/fn/middleware). */
  lemma WrapTwice(o: Oracle, w: Trace, ctx: Ctx, a: Middleware, b: Middleware, input: Value, f: Fn)
    ensures InvokeFn(o, w, ctx, Wrap(a, Wrap(b, f)), input) == InvokeFn(o, w, ctx, Wrap(Composed(a, b), f), input)
  {
    assert InvokeFn(o, w, ctx, Wrap(Composed(a, b), f), input) == InvokeMw(o, w, ctx, Composed(a, b), input, f);
  }
}
