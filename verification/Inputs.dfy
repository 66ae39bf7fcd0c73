/**
 What a business fn is called with: through loaders, pools and any nesting of middleware it is
 called with the input and the context at which the descent through the layers ends, once, and
 not at all if the descent ends early.
 */
module Inputs {
  import opened Values
  import opened World
  import opened Components
  import opened TwoPass
  import opened Accounting

  /** Where the descent through a list of leaves ends. */
  function Innermost(o: Oracle, d: Descent, leaves: seq<Leaf>): Descent
    decreases |leaves|
  {
    if d.Halt? || leaves == [] then d
    else Innermost(o, Before(o, d.world, d.ctx, leaves[0], d.input), leaves[1..])
  }

  lemma {:induction false} InnermostEndsDescent(o: Oracle, d: Descent, leaves: seq<Leaf>, passed: seq<Ctx>)
    ensures Innermost(o, d, leaves) == Descend(o, d, leaves, passed).end
    decreases |leaves|
  {
    if d.Down? && leaves != [] {
      var next := Before(o, d.world, d.ctx, leaves[0], d.input);
      if next.Down? {
        InnermostEndsDescent(o, next, leaves[1..], passed + [d.ctx]);
      }
    }
  }

  /** The call of a business fn that invoking a fn comes down to, if it gets that far. */
  function Given(o: Oracle, w: Trace, ctx: Ctx, f: Fn, input: Value): Option<Query>
    decreases f
  {
    match f
    case Base(id) => Some(CallBase(id, ctx, input))
    case Identity => Some(CallIdentity(input))
    case Loader(None) => None
    case Loader(Some(g)) => Given(o, w, ctx, g, input)
    case Wrap(m, g) =>
      (match Innermost(o, Down(ctx, input, w), Flatten(m))
       case Halt(_) => None
       case Down(c, i, w1) => Given(o, w1, c, g, i))
    case Pool(pool, members) =>
      var q := TakeFromPool(pool, |members|);
      var taken := o(w, q).value;
      if taken.Int? && 0 <= taken.n < |members|
      then Given(o, w + [Event(q, o(w, q))], ctx, members[taken.n], input) else None
  }

  /** The calls of business fns in a trace. */
  function Calls(w: Trace): seq<Query> {
    Queries(BaseCalls(w))
  }

  predicate Makes(w: Trace, w': Trace, q: Option<Query>) {
    Calls(w') == Calls(w) + (if q.Some? then [q.value] else [])
  }

  lemma QuietMakesNothing(w: Trace, w': Trace)
    requires Quiet(w, w')
    ensures Calls(w') == Calls(w)
  {
  }

  lemma OneCall(w: Trace, e: Event)
    requires IsBaseCall(e.query)
    ensures Makes(w, w + [e], Some(e.query))
  {
    Recorded(w, e);
    hide BaseCalls;
    assert Queries(BaseCalls(w) + [e]) == Queries(BaseCalls(w)) + [e.query];
  }

  /** Main result: invoking any fn makes exactly the call it comes down to. */
  lemma {:induction false} FnMakes(o: Oracle, w: Trace, ctx: Ctx, f: Fn, input: Value)
    ensures Makes(w, InvokeFn(o, w, ctx, f, input).world, Given(o, w, ctx, f, input))
    decreases f, 0
  {
    hide Flatten, Before, After, InvokeLeaf, InvokeMw, Calls, Quiet, Innermost;
    match f
    case Base(id) => OneCall(w, Event(CallBase(id, ctx, input), o(w, CallBase(id, ctx, input))));
    case Identity => OneCall(w, Event(CallIdentity(input), NO_ANSWER));
    case Wrap(m, g) =>
      InvokeIsLayers(o, w, ctx, m, input, g);
      LayersMake(o, w, ctx, Flatten(m), input, g);
    case Loader(inner) =>
      if inner.Some? { FnMakes(o, w, ctx, inner.value, input); }
    case Pool(pool, members) =>
      var q := TakeFromPool(pool, |members|);
      AskIsQuiet(o, w, q);
      var taken, w1 := o(w, q).value, Ask(o, w, q);
      QuietMakesNothing(w, w1);
      if taken.Int? && 0 <= taken.n < |members| {
        FnMakes(o, w1, ctx, members[taken.n], input);
        var w2 := InvokeFn(o, w1, ctx, members[taken.n], input).world;
        AskIsQuiet(o, w2, ReturnToPool(pool, taken.n));
        QuietMakesNothing(w2, Ask(o, w2, ReturnToPool(pool, taken.n)));
      }
  }

  /** The call the fn under a list of leaves comes down to. */
  function GivenUnder(o: Oracle, d: Descent, leaves: seq<Leaf>, f: Fn): Option<Query> {
    match Innermost(o, d, leaves)
    case Halt(_) => None
    case Down(c, i, w1) => Given(o, w1, c, f, i)
  }

  lemma {:induction false} LayersMake(o: Oracle, w: Trace, ctx: Ctx, leaves: seq<Leaf>, input: Value, f: Fn)
    ensures Makes(w, Layers(o, w, ctx, leaves, input, f).world, GivenUnder(o, Down(ctx, input, w), leaves, f))
    decreases f, 1 + |leaves|
  {
    hide Before, After, InvokeFn, Given, Calls, Quiet;
    if leaves == [] {
      FnMakes(o, w, ctx, f, input);
    } else {
      BeforeIsQuiet(o, w, ctx, leaves[0], input);
      match Before(o, w, ctx, leaves[0], input)
      case Halt(r) =>
        assert Innermost(o, Halt(r), leaves[1..]) == Halt(r);
        QuietMakesNothing(w, r.world);
      case Down(c, i, w1) =>
        QuietMakesNothing(w, w1);
        LayersMake(o, w1, c, leaves[1..], i, f);
        var r := Layers(o, w1, c, leaves[1..], i, f);
        AfterKeepsErrors(o, ctx, leaves[0], r);
        QuietMakesNothing(r.world, After(o, ctx, leaves[0], r).world);
    }
  }

  // ---- without middleware ---------------------------------------------------------------

  /** A business fn by itself is asked with the input, and its answer is the reply. */
  lemma BaseIsAsked(o: Oracle, w: Trace, ctx: Ctx, b: nat, input: Value)
    ensures var r := InvokeFn(o, w, ctx, Base(b), input);
            var a := o(w, CallBase(b, ctx, input));
            r.world == w + [Event(CallBase(b, ctx, input), a)] && r.out == Outcome(a.value, a.err)
  {
  }

  /** The identity fn hands its input back, without asking anybody. */
  lemma IdentityReturnsInput(o: Oracle, w: Trace, ctx: Ctx, input: Value)
    ensures var r := InvokeFn(o, w, ctx, Identity, input);
            && r.out == Outcome(input, None)
            && w <= r.world && Asked(w, r.world) == [CallIdentity(input)]
  {
    AskedNothing(w);
    AskedMore(w, w, Event(CallIdentity(input), NO_ANSWER));
  }

  /** A pool calls the fn it was handed, and hands that one back. */
  lemma PoolUsesTaken(o: Oracle, w: Trace, ctx: Ctx, pool: nat, members: seq<Fn>, input: Value)
    ensures var r, q := InvokeFn(o, w, ctx, Pool(pool, members), input), TakeFromPool(pool, |members|);
            var k := o(w, q).value;
            && w <= r.world
            && (if k.Int? && 0 <= k.n < |members| then
                  (forall b :: members[k.n] == Base(b) ==>
                     && Asked(w, r.world) == [q, CallBase(b, ctx, input), ReturnToPool(pool, k.n)]
                     && |r.world| == |w| + 3
                     && r.out == Outcome(r.world[|w| + 1].answer.value, r.world[|w| + 1].answer.err))
                else Asked(w, r.world) == [q] && r.out == Outcome(Nil, Some(PoolTimeout)))
  {
    var q := TakeFromPool(pool, |members|);
    AskedNothing(w);
    AskedMore(w, w, Event(q, o(w, q)));
    var taken, w1 := o(w, q).value, Ask(o, w, q);
    if taken.Int? && 0 <= taken.n < |members| {
      FnAccounted(o, w1, ctx, members[taken.n], input);
      if members[taken.n].Base? {
        var call := CallBase(members[taken.n].id, ctx, input);
        var w2 := w1 + [Event(call, o(w1, call))];
        AskedMore(w, w1, Event(call, o(w1, call)));
        AskedMore(w, w2, Event(ReturnToPool(pool, taken.n), o(w2, ReturnToPool(pool, taken.n))));
      }
    }
  }

  /** A loader is not noticed. */
  lemma LoaderIsTransparent(o: Oracle, w: Trace, ctx: Ctx, f: Fn, input: Value)
    ensures InvokeFn(o, w, ctx, Loader(Some(f)), input) == InvokeFn(o, w, ctx, f, input)
    ensures InvokeFn(o, w, ctx, Loader(None), input) == Reply(Outcome(Nil, Some(NilPanic)), w)
  {
  }
}
