/**
 The meaning of a middleware stack without its nesting: a machine that descends
 through the inputs of a flat list of leaves, calls the fn, and unwinds through
 the outputs. A leaf that fails on the way down ends the descent early.
 */
module TwoPass {
  import opened Values
  import opened World
  import opened Components

  /** What a leaf does before the inner fn: pass a context and an input on, or give up. */
  datatype Descent = Down(ctx: Ctx, input: Value, world: Trace) | Halt(reply: Reply)

  function PassOn(ctx: Ctx, r: Reply): Descent {
    if r.out.err.Some? then Halt(Failure(r.out.err.value, r.world)) else Down(ctx, r.out.output, r.world)
  }

  function Before(o: Oracle, w: Trace, ctx: Ctx, leaf: Leaf, input: Value): Descent {
    match leaf
    case Jq(inputCode, _) => PassOn(ctx, JqApply(o, w, ctx, inputCode, input))
    case Json(inputStrategy, _) => PassOn(ctx, Transcode(o, w, input, inputStrategy))
    case Kafka(producer, _, _) =>
      var w1 := InitOnce(o, w, producer);
      PassOn(ctx, Reply(Outcome(input, InitError(w1, producer)), w1))
    case Tap(tap, configured, tapInput, _, _) =>
      if !configured then Halt(Failure(TapUnconfigured, w)) else
      var w1 := Ask(o, w, StartTap(tap));
      if o(w, StartTap(tap)).err.Some? then Halt(Failure(o(w, StartTap(tap)).err.value, w1))
      else Down(ctx, input, if tapInput then Ask(o, w1, WriteTap(tap, OfValue(input))) else w1)
    case Gate(gate, ready) =>
      if !ready then Halt(Failure(NilPanic, w))
      else PassOn(ctx, Reply(Outcome(input, o(w, Admit(gate)).err), Ask(o, w, Admit(gate))))
    case Key(key) =>
      if input.Map? then Down(ctx, if key in input.m then input.m[key] else Nil, w)
      else Halt(Failure(InputNotMap, w))
    case Deadline(duration) => Down(WithTimeout(ctx, duration), input, w)
    case Forward => Down(ctx, input, w)
  }

  /** What a leaf makes of the inner reply; `ctx` is the context the leaf was given. */
  function After(o: Oracle, ctx: Ctx, leaf: Leaf, r: Reply): Reply {
    match leaf
    case Jq(_, outputCode) =>
      if r.out.err.Some? then r else JqApply(o, r.world, ctx, outputCode, r.out.output)
    case Json(_, outputStrategy) =>
      if r.out.err.Some? then Failure(r.out.err.value, r.world)
      else Transcode(o, r.world, r.out.output, outputStrategy)
    case Kafka(producer, successTopic, errorTopic) => Publish(o, producer, successTopic, errorTopic, r)
    case Tap(tap, _, _, tapOutput, tapError) =>
      var w1 := if tapOutput then Ask(o, r.world, WriteTap(tap, OfValue(r.out.output))) else r.world;
      r.(world := if r.out.err.Some? && tapError then Ask(o, w1, WriteTap(tap, OfErr(r.out.err.value))) else w1)
    case _ => r
  }

  /** The two halves of a leaf around one call of its inner fn, if it gets that far. */
  function Sandwich(o: Oracle, ctx: Ctx, leaf: Leaf, d: Descent, f: Fn): Reply {
    match d
    case Halt(r) => r
    case Down(c, i, w1) => After(o, ctx, leaf, InvokeFn(o, w1, c, f, i))
  }

  /** Every shipped leaf calls its inner fn at most once, between these two halves. */
  lemma LeafIsTwoPass(o: Oracle, w: Trace, ctx: Ctx, leaf: Leaf, input: Value, f: Fn)
    ensures InvokeLeaf(o, w, ctx, leaf, input, f) ==
            Sandwich(o, ctx, leaf, Before(o, w, ctx, leaf, input), f)
  {
    hide InvokeFn, JqApply, Transcode, InitOnce, FirstInit, Publish, Weight, WeightOfAll;
  }

  /** The leaves of a middleware, outermost first. */
  function Flatten(m: Middleware): seq<Leaf> {
    match m
    case IdentityMw => []
    case Composed(a, b) => Flatten(a) + Flatten(b)
    case Pipeline(c) => Flatten(c)
    case Layer(leaf) => [leaf]
  }

  // ---- the machine ----------------------------------------------------------

  /** How far a descent came: the contexts given to the layers passed, and where it ended. */
  datatype Trail = Trail(passed: seq<Ctx>, end: Descent)

  function Descend(o: Oracle, d: Descent, leaves: seq<Leaf>, passed: seq<Ctx>): Trail
    decreases |leaves|
  {
    if d.Halt? || leaves == [] then Trail(passed, d) else
    var next := Before(o, d.world, d.ctx, leaves[0], d.input);
    if next.Halt? then Trail(passed, next)
    else Descend(o, next, leaves[1..], passed + [d.ctx])
  }

  function Unwind(o: Oracle, passed: seq<Ctx>, leaves: seq<Leaf>, r: Reply): Reply
    requires |passed| <= |leaves|
    decreases |passed|
  {
    if passed == [] then r else
    var last := |passed| - 1;
    Unwind(o, passed[..last], leaves, After(o, passed[last], leaves[last], r))
  }

  lemma {:induction false} DescendPassesLayers(o: Oracle, d: Descent, leaves: seq<Leaf>, passed: seq<Ctx>)
    ensures var trail := Descend(o, d, leaves, passed);
            |passed| <= |trail.passed| <= |passed| + |leaves| && trail.passed[..|passed|] == passed
    ensures var trail := Descend(o, d, leaves, passed);
            d.Down? && trail.end.Down? ==> |trail.passed| == |passed| + |leaves|
    decreases |leaves|
  {
    if d.Down? && leaves != [] {
      var next := Before(o, d.world, d.ctx, leaves[0], d.input);
      if next.Down? {
        DescendPassesLayers(o, next, leaves[1..], passed + [d.ctx]);
      }
    }
  }

  function Machine(o: Oracle, w: Trace, ctx: Ctx, leaves: seq<Leaf>, input: Value, f: Fn): Reply {
    DescendPassesLayers(o, Down(ctx, input, w), leaves, []);
    var trail := Descend(o, Down(ctx, input, w), leaves, []);
    match trail.end
    case Halt(r) => Unwind(o, trail.passed, leaves, r)
    case Down(c, i, w1) => Unwind(o, trail.passed, leaves, InvokeFn(o, w1, c, f, i))
  }

  // ---- the middle form: layers around layers ---------------------------------

  function Layers(o: Oracle, w: Trace, ctx: Ctx, leaves: seq<Leaf>, input: Value, f: Fn): Reply
    decreases |leaves|
  {
    if leaves == [] then InvokeFn(o, w, ctx, f, input) else
    match Before(o, w, ctx, leaves[0], input)
    case Halt(r) => r
    case Down(c, i, w1) => After(o, ctx, leaves[0], Layers(o, w1, c, leaves[1..], i, f))
  }

  /** Invoking any middleware is invoking its leaves in order, whatever the nesting. */
  lemma {:induction false} InvokeIsLayers(o: Oracle, w: Trace, ctx: Ctx, m: Middleware, input: Value, f: Fn)
    ensures InvokeMw(o, w, ctx, m, input, f) == Layers(o, w, ctx, Flatten(m), input, f)
    decreases MwWeight(m) + Weight(f), 0
  {
    match m
    case IdentityMw =>
    case Composed(a, b) =>
      InvokeIsLayers(o, w, ctx, a, input, Wrap(b, f));
      LayersAroundWrap(o, w, ctx, Flatten(a), b, input, f);
    case Pipeline(c) =>
      InvokeIsLayers(o, w, ctx, c, input, f);
    case Layer(leaf) =>
      LeafIsTwoPass(o, w, ctx, leaf, input, f);
      assert Flatten(m)[1..] == [];
  }

  lemma {:induction false} LayersAroundWrap(
    o: Oracle, w: Trace, ctx: Ctx, leaves: seq<Leaf>, b: Middleware, input: Value, f: Fn)
    ensures Layers(o, w, ctx, leaves, input, Wrap(b, f)) == Layers(o, w, ctx, leaves + Flatten(b), input, f)
    decreases MwWeight(b) + Weight(f), |leaves| + 1
  {
    hide Before, After, Flatten, InvokeLeaf, WeightOfAll;
    if leaves == [] {
      assert leaves + Flatten(b) == Flatten(b);
      InvokeIsLayers(o, w, ctx, b, input, f);
    } else {
      assert (leaves + Flatten(b))[1..] == leaves[1..] + Flatten(b);
      match Before(o, w, ctx, leaves[0], input)
      case Halt(_) =>
      case Down(c, i, w1) => LayersAroundWrap(o, w1, c, leaves[1..], b, i, f);
    }
  }

  // ---- the machine refines Invoke ----------------------------------------------

  /** Unwinding past the first layer is unwinding the rest, then that layer. */
  lemma {:induction false} UnwindFirst(o: Oracle, c: Ctx, passed: seq<Ctx>, leaves: seq<Leaf>, r: Reply)
    requires |passed| < |leaves|
    ensures Unwind(o, [c] + passed, leaves, r) == After(o, c, leaves[0], Unwind(o, passed, leaves[1..], r))
    decreases |passed|
  {
    if passed == [] {
      assert ([c] + passed)[..0] == [];
    } else {
      var last := |passed| - 1;
      assert ([c] + passed)[..last + 1] == [c] + passed[..last];
      UnwindFirst(o, c, passed[..last], leaves, After(o, passed[last], leaves[last + 1], r));
    }
  }

  /** The contexts already passed are carried along and not looked at. */
  lemma {:induction false} DescendFrame(o: Oracle, d: Descent, leaves: seq<Leaf>, c: Ctx, passed: seq<Ctx>)
    ensures Descend(o, d, leaves, [c] + passed) ==
            var t := Descend(o, d, leaves, passed); Trail([c] + t.passed, t.end)
    decreases |leaves|
  {
    if d.Down? && leaves != [] {
      var next := Before(o, d.world, d.ctx, leaves[0], d.input);
      if next.Down? {
        assert [c] + passed + [d.ctx] == [c] + (passed + [d.ctx]);
        DescendFrame(o, next, leaves[1..], c, passed + [d.ctx]);
      }
    }
  }

  lemma {:induction false} LayersIsMachine(o: Oracle, w: Trace, ctx: Ctx, leaves: seq<Leaf>, input: Value, f: Fn)
    ensures Layers(o, w, ctx, leaves, input, f) == Machine(o, w, ctx, leaves, input, f)
    decreases |leaves|
  {
    if leaves != [] {
      match Before(o, w, ctx, leaves[0], input)
      case Halt(_) =>
      case Down(c, i, w1) =>
        LayersIsMachine(o, w1, c, leaves[1..], i, f);
        DescendPassesLayers(o, Down(c, i, w1), leaves[1..], []);
        DescendFrame(o, Down(c, i, w1), leaves[1..], ctx, []);
        var t := Descend(o, Down(c, i, w1), leaves[1..], []);
        assert [] + [ctx] == [ctx] + [];
        var r := match t.end case Halt(r) => r case Down(c', i', w') => InvokeFn(o, w', c', f, i');
        UnwindFirst(o, ctx, t.passed, leaves, r);
    }
  }

  /** Main result: the nested Go calls compute what the two passes over the flat list compute. */
  lemma InvokeIsTwoPasses(o: Oracle, w: Trace, ctx: Ctx, m: Middleware, input: Value, f: Fn)
    ensures InvokeMw(o, w, ctx, m, input, f) == Machine(o, w, ctx, Flatten(m), input, f)
  {
    InvokeIsLayers(o, w, ctx, m, input, f);
    LayersIsMachine(o, w, ctx, Flatten(m), input, f);
  }

  /** Nesting, grouping and identities carry no meaning: only the leaves and their order do. */
  lemma SameLeavesSameMeaning(o: Oracle, w: Trace, ctx: Ctx, m: Middleware, n: Middleware, input: Value, f: Fn)
    requires Flatten(m) == Flatten(n)
    ensures InvokeMw(o, w, ctx, m, input, f) == InvokeMw(o, w, ctx, n, input, f)
  {
    InvokeIsLayers(o, w, ctx, m, input, f);
    InvokeIsLayers(o, w, ctx, n, input, f);
  }

  /**
   Early stop: when layer k is the first to fail on the way down, neither the fn nor a
   layer after it is consulted: the reply is the same for every fn and every remainder.
   */
  lemma {:induction false} HaltIgnoresTheRest(
    o: Oracle, w: Trace, ctx: Ctx, leaves: seq<Leaf>, rest: seq<Leaf>, rest': seq<Leaf>, input: Value, f: Fn, g: Fn)
    requires Descend(o, Down(ctx, input, w), leaves, []).end.Halt?
    ensures Machine(o, w, ctx, leaves + rest, input, f) == Machine(o, w, ctx, leaves + rest', input, g)
    decreases |leaves|
  {
    LayersIsMachine(o, w, ctx, leaves + rest, input, f);
    LayersIsMachine(o, w, ctx, leaves + rest', input, g);
    match Before(o, w, ctx, leaves[0], input)
    case Halt(_) =>
    case Down(c, i, w1) =>
      DescendFrame(o, Down(c, i, w1), leaves[1..], ctx, []);
      assert [] + [ctx] == [ctx] + [];
      assert (leaves + rest)[1..] == leaves[1..] + rest && (leaves + rest')[1..] == leaves[1..] + rest';
      HaltIgnoresTheRest(o, w1, c, leaves[1..], rest, rest', i, f, g);
      LayersIsMachine(o, w1, c, leaves[1..] + rest, i, f);
      LayersIsMachine(o, w1, c, leaves[1..] + rest', i, g);
  }
}
