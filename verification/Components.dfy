/**
 Fns and middleware as values, and the meaning of `Invoke`
 (fn/fn.go, run/run.go, run/fn/middleware, run/fn/loader, run/fn/pool,
 run/middleware).
 */
module Components {
  import opened Values
  import opened World

  datatype Fn =
    | Base(id: nat)                            // cli, http or any other business fn
    | Identity
    | Wrap(mw: Middleware, fn: Fn)             // run/fn/middleware
    | Loader(inner: Option<Fn>)                // run/fn/loader; None until configured
    | Pool(pool: nat, members: seq<Fn>)        // run/fn/pool

  datatype Middleware =
    | IdentityMw
    | Composed(a: Middleware, b: Middleware)
    | Pipeline(current: Middleware)
    | Layer(leaf: Leaf)

  /** The middleware that do not contain other middleware. */
  datatype Leaf =
    | Jq(inputCode: Option<string>, outputCode: Option<string>)
    | Json(inputStrategy: string, outputStrategy: string)
    | Kafka(producer: nat, successTopic: string, errorTopic: string)
    | Tap(tap: nat, configured: bool, tapInput: bool, tapOutput: bool, tapError: bool)
    | Gate(gate: nat, ready: bool)             // circuitbreaker, ratelimiter
    | Key(key: string)
    | Deadline(duration: int)                  // timeout
    | Forward                                  // debug, healthcheck

  /** An outcome together with the world it was reached in. */
  datatype Reply = Reply(out: Outcome, world: Trace)

  function Failure(err: Err, w: Trace): Reply {
    Reply(Outcome(Nil, Some(err)), w)
  }

  // ---- weights: the measure by which Invoke terminates -----------------------

  function Weight(f: Fn): (n: nat)
    ensures n > 0
    decreases f, 1
  {
    match f
    case Base(_) => 1
    case Identity => 1
    case Wrap(m, g) => 1 + MwWeight(m) + Weight(g)
    case Loader(None) => 1
    case Loader(Some(g)) => 1 + Weight(g)
    case Pool(_, members) => 1 + WeightOfAll(members)
  }

  function WeightOfAll(fs: seq<Fn>): (n: nat)
    ensures forall i :: 0 <= i < |fs| ==> Weight(fs[i]) <= n
    decreases fs, 0
  {
    if fs == [] then 0 else Weight(fs[0]) + WeightOfAll(fs[1..])
  }

  function MwWeight(m: Middleware): (n: nat)
    ensures n > 0
  {
    match m
    case IdentityMw => 1
    case Composed(a, b) => 2 + MwWeight(a) + MwWeight(b)
    case Pipeline(c) => 1 + MwWeight(c)
    case Layer(_) => 1
  }

  // ---- Invoke ---------------------------------------------------------------

  function InvokeFn(o: Oracle, w: Trace, ctx: Ctx, f: Fn, input: Value): Reply
    decreases Weight(f), 0
  {
    match f
    case Base(id) =>
      var q := CallBase(id, ctx, input);
      var a := o(w, q);
      Reply(Outcome(a.value, a.err), w + [Event(q, a)])
    case Identity =>
      Reply(Outcome(input, None), w + [Event(CallIdentity(input), NO_ANSWER)])
    case Wrap(m, g) => InvokeMw(o, w, ctx, m, input, g)
    case Loader(None) => Failure(NilPanic, w)
    case Loader(Some(g)) => InvokeFn(o, w, ctx, g, input)
    case Pool(pool, members) =>
      var q := TakeFromPool(pool, |members|);
      var taken := o(w, q).value;
      var w1 := Ask(o, w, q);
      if taken.Int? && 0 <= taken.n < |members| then
        var r := InvokeFn(o, w1, ctx, members[taken.n], input);
        r.(world := Ask(o, r.world, ReturnToPool(pool, taken.n)))
      else
        Failure(PoolTimeout, w1)
  }

  function InvokeMw(o: Oracle, w: Trace, ctx: Ctx, m: Middleware, input: Value, f: Fn): Reply
    decreases MwWeight(m) + Weight(f), 1
  {
    match m
    case IdentityMw => InvokeFn(o, w, ctx, f, input)
    case Composed(a, b) => InvokeMw(o, w, ctx, a, input, Wrap(b, f))
    case Pipeline(c) => InvokeMw(o, w, ctx, c, input, f)
    case Layer(leaf) => InvokeLeaf(o, w, ctx, leaf, input, f)
  }

  function InvokeLeaf(o: Oracle, w: Trace, ctx: Ctx, leaf: Leaf, input: Value, f: Fn): Reply
    decreases 1 + Weight(f), 0
  {
    match leaf
    case Jq(inputCode, outputCode) =>
      var newInput := JqApply(o, w, ctx, inputCode, input);
      if newInput.out.err.Some? then Failure(newInput.out.err.value, newInput.world) else
      var r := InvokeFn(o, newInput.world, ctx, f, newInput.out.output);
      if r.out.err.Some? then r else JqApply(o, r.world, ctx, outputCode, r.out.output)

    case Json(inputStrategy, outputStrategy) =>
      var newInput := Transcode(o, w, input, inputStrategy);
      if newInput.out.err.Some? then Failure(newInput.out.err.value, newInput.world) else
      var r := InvokeFn(o, newInput.world, ctx, f, newInput.out.output);
      if r.out.err.Some? then Failure(r.out.err.value, r.world)
      else Transcode(o, r.world, r.out.output, outputStrategy)

    case Kafka(producer, successTopic, errorTopic) =>
      var w1 := InitOnce(o, w, producer);
      if InitError(w1, producer).Some? then Failure(InitError(w1, producer).value, w1) else
      Publish(o, producer, successTopic, errorTopic, InvokeFn(o, w1, ctx, f, input))

    case Tap(tap, configured, tapInput, tapOutput, tapError) =>
      if !configured then Failure(TapUnconfigured, w) else
      var started := o(w, StartTap(tap)).err;
      var w1 := Ask(o, w, StartTap(tap));
      if started.Some? then Failure(started.value, w1) else
      var w2 := if tapInput then Ask(o, w1, WriteTap(tap, OfValue(input))) else w1;
      var r := InvokeFn(o, w2, ctx, f, input);
      var w3 := if tapOutput then Ask(o, r.world, WriteTap(tap, OfValue(r.out.output))) else r.world;
      var w4 := if r.out.err.Some? && tapError then Ask(o, w3, WriteTap(tap, OfErr(r.out.err.value))) else w3;
      Reply(r.out, w4)

    case Gate(gate, ready) =>
      if !ready then Failure(NilPanic, w) else
      var admitted := o(w, Admit(gate)).err;
      var w1 := Ask(o, w, Admit(gate));
      if admitted.Some? then Failure(admitted.value, w1) else InvokeFn(o, w1, ctx, f, input)

    case Key(key) =>
      if input.Map? then InvokeFn(o, w, ctx, f, if key in input.m then input.m[key] else Nil)
      else Failure(InputNotMap, w)

    case Deadline(duration) => InvokeFn(o, w, WithTimeout(ctx, duration), f, input)

    case Forward => InvokeFn(o, w, ctx, f, input)
  }

  // ---- what the leaves do around the inner fn ---------------------------------

  /** The value a finished jq iterator stands for: the first error, the only value, or all values. */
  function Collected(items: seq<Item>): Outcome {
    if exists i :: 0 <= i < |items| && items[i].Failed? then Outcome(Nil, Some(FirstFailure(items)))
    else if |items| == 1 then Outcome(items[0].v, None)
    else Outcome(Arr(seq(|items|, i requires 0 <= i < |items| && items[i].Emitted? => items[i].v)), None)
  }

  function FirstFailure(items: seq<Item>): Err
    requires exists i :: 0 <= i < |items| && items[i].Failed?
  {
    if items[0].Failed? then items[0].err else FirstFailure(items[1..])
  }

  function JqApply(o: Oracle, w: Trace, ctx: Ctx, code: Option<string>, input: Value): Reply {
    match code
    case None => Reply(Outcome(input, None), w)
    case Some(c) =>
      var q := RunJq(c, ctx, input);
      Reply(Collected(o(w, q).items), Ask(o, w, q))
  }

  function Transcode(o: Oracle, w: Trace, v: Value, strategy: string): Reply {
    if strategy == "serialize" then
      var q := MarshalJson(v);
      var a := o(w, q);
      if a.err.Some? then Failure(a.err.value, Ask(o, w, q)) else Reply(Outcome(a.value, None), Ask(o, w, q))
    else if strategy == "deserialize" then
      if !v.Str? then Failure(InputNotString, w) else
      var q := UnmarshalJson(v.s);
      var a := o(w, q);
      Reply(Outcome(if a.err.Some? then v else a.value, None), Ask(o, w, q))
    else if strategy == "" then Reply(Outcome(v, None), w)
    else Failure(UnknownStrategy, w)
  }

  /** The answer to the first attempt to create the producer, if there was one. */
  function FirstInit(w: Trace, producer: nat): Option<Answer> {
    if w == [] then None else
      var earlier := FirstInit(w[..|w| - 1], producer);
      var e := w[|w| - 1];
      if earlier.Some? then earlier else if e.query == InitProducer(producer) then Some(e.answer) else None
  }

  /** `once.Do`: the producer is created on the first Invoke and never again. */
  function InitOnce(o: Oracle, w: Trace, producer: nat): Trace {
    if FirstInit(w, producer).Some? then w else Ask(o, w, InitProducer(producer))
  }

  function InitError(w: Trace, producer: nat): Option<Err> {
    var a := FirstInit(w, producer);
    if a.Some? then a.value.err else None
  }

  /** The sends of the kafka middleware after the inner fn has returned. */
  function Publish(o: Oracle, producer: nat, successTopic: string, errorTopic: string, r: Reply): Reply {
    if r.out.err.Some? then
      if errorTopic == "" then r else
      var q := Send(producer, errorTopic, OfErr(r.out.err.value));
      var sent := o(r.world, q).err;
      var err := if sent.Some? then Wrapped(r.out.err.value, sent.value) else r.out.err.value;
      Reply(Outcome(r.out.output, Some(err)), Ask(o, r.world, q))
    else if successTopic != "" && r.out.output != Nil then
      var q := Send(producer, successTopic, OfValue(r.out.output));
      Reply(Outcome(r.out.output, o(r.world, q).err), Ask(o, r.world, q))
    else r
  }
}
