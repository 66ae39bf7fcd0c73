/**
 What every fn built from the shipped parts promises its source: one Invoke calls at
 most one business fn, at most once, and reports success only if that call succeeded.
 */
module Accounting {
  import opened Values
  import opened World
  import opened Components
  import opened TwoPass

  /** An event a middleware, a pool or a loader may cause on its own account. */
  predicate IsQuiet(e: Event) {
    !IsBaseCall(e.query) && !e.query.Receive? && !e.query.Settle?
  }

  /** No producer was created again between `w` and `w'`. */
  ghost predicate NoSecondInit(w: Trace, w': Trace) {
    forall id {:trigger Inits(w', id)} :: Inits(w', id) <= 1 || Inits(w', id) == Inits(w, id)
  }

  /** From `w` to `w'` only bookkeeping happened, and no producer was created a second time. */
  ghost predicate Quiet(w: Trace, w': Trace) {
    && w <= w'
    && (forall k :: |w| <= k < |w'| ==> IsQuiet(w'[k]))
    && BaseCalls(w') == BaseCalls(w)
    && NoSecondInit(w, w')
  }

  /** The promise of one Invoke, started in `w`. */
  ghost predicate Accounted(w: Trace, r: Reply) {
    && w <= r.world
    && (forall k :: |w| <= k < |r.world| ==> !r.world[k].query.Receive? && !r.world[k].query.Settle?)
    && NoSecondInit(w, r.world)
    && BaseCalls(w) <= BaseCalls(r.world)
    && |BaseCalls(r.world)| <= |BaseCalls(w)| + 1
    && (r.out.err.None? ==>
          && |BaseCalls(r.world)| == |BaseCalls(w)| + 1
          && BaseCalls(r.world)[|BaseCalls(w)|].answer.err.None?)
  }

  lemma AskIsQuiet(o: Oracle, w: Trace, q: Query)
    requires !IsBaseCall(q) && !q.Receive? && !q.Settle? && !q.InitProducer?
    ensures Quiet(w, Ask(o, w, q))
  {
    Recorded(w, Event(q, o(w, q)));
  }

  lemma QuietTransitive(w: Trace, w1: Trace, w2: Trace)
    requires Quiet(w, w1) && Quiet(w1, w2)
    ensures Quiet(w, w2)
  {
    assert forall k :: |w| <= k < |w1| ==> w1[k] == w2[k];
  }

  /** An accounted Invoke with bookkeeping before it is accounted. */
  lemma QuietThenAccounted(w: Trace, w1: Trace, r: Reply)
    requires Quiet(w, w1) && Accounted(w1, r)
    ensures Accounted(w, r)
  {
    assert forall k :: |w| <= k < |w1| ==> w1[k] == r.world[k];
  }

  /** An accounted Invoke with bookkeeping after it is accounted, as long as errors stay errors. */
  lemma AccountedThenQuiet(w: Trace, r: Reply, r': Reply)
    requires Accounted(w, r) && Quiet(r.world, r'.world)
    requires r.out.err.Some? ==> r'.out.err.Some?
    ensures Accounted(w, r')
  {
    assert forall k :: |w| <= k < |r.world| ==> r.world[k] == r'.world[k];
  }

  lemma {:induction false} FirstInitFound(w: Trace, id: nat)
    ensures FirstInit(w, id).Some? <==> Inits(w, id) > 0
  {
    if w != [] {
      FirstInitFound(w[..|w| - 1], id);
    }
  }

  /** `once`: the second and later Invokes do not create the producer again. */
  lemma InitOnceIsQuiet(o: Oracle, w: Trace, id: nat)
    ensures Quiet(w, InitOnce(o, w, id))
    ensures FirstInit(InitOnce(o, w, id), id).Some?
  {
    FirstInitFound(w, id);
    FirstInitFound(InitOnce(o, w, id), id);
    hide FirstInit, BaseCalls, Inits;
    if FirstInit(w, id).None? {
      Recorded(w, Event(InitProducer(id), o(w, InitProducer(id))));
    }
  }

  lemma BeforeIsQuiet(o: Oracle, w: Trace, ctx: Ctx, leaf: Leaf, input: Value)
    ensures var d := Before(o, w, ctx, leaf, input);
            match d
            case Halt(r) => Quiet(w, r.world) && r.out.err.Some?
            case Down(_, _, w1) => Quiet(w, w1)
  {
    hide Transcode, InitOnce, FirstInit, BaseCalls, Inits, Collected;
    match leaf
    case Jq(code, _) =>
      if code.Some? { AskIsQuiet(o, w, RunJq(code.value, ctx, input)); }
    case Json(strategy, _) =>
      TranscodeIsQuiet(o, w, input, strategy);
    case Kafka(producer, _, _) =>
      InitOnceIsQuiet(o, w, producer);
    case Tap(tap, _, _, _, _) =>
      StartTapIsQuiet(o, w, tap, input);
    case Gate(gate, _) =>
      AskIsQuiet(o, w, Admit(gate));
    case _ =>
  }

  lemma StartTapIsQuiet(o: Oracle, w: Trace, tap: nat, input: Value)
    ensures var w1 := Ask(o, w, StartTap(tap));
            Quiet(w, w1) && Quiet(w, Ask(o, w1, WriteTap(tap, OfValue(input))))
  {
    var w1 := Ask(o, w, StartTap(tap));
    AskIsQuiet(o, w, StartTap(tap));
    AskIsQuiet(o, w1, WriteTap(tap, OfValue(input)));
    QuietTransitive(w, w1, Ask(o, w1, WriteTap(tap, OfValue(input))));
  }

  lemma TranscodeIsQuiet(o: Oracle, w: Trace, v: Value, strategy: string)
    ensures Quiet(w, Transcode(o, w, v, strategy).world)
  {
    AskIsQuiet(o, w, MarshalJson(v));
    if v.Str? { AskIsQuiet(o, w, UnmarshalJson(v.s)); }
  }

  /** After the inner fn a leaf may turn success into an error, never an error into success. */
  lemma AfterKeepsErrors(o: Oracle, ctx: Ctx, leaf: Leaf, r: Reply)
    ensures Quiet(r.world, After(o, ctx, leaf, r).world)
    ensures r.out.err.Some? ==> After(o, ctx, leaf, r).out.err.Some?
  {
    match leaf
    case Jq(_, code) =>
      if code.Some? { AskIsQuiet(o, r.world, RunJq(code.value, ctx, r.out.output)); }
    case Json(_, _) =>
      TranscodeIsQuiet(o, r.world, r.out.output, leaf.outputStrategy);
    case Kafka(producer, successTopic, errorTopic) =>
      AskIsQuiet(o, r.world, Send(producer, successTopic, OfValue(r.out.output)));
      if r.out.err.Some? { AskIsQuiet(o, r.world, Send(producer, errorTopic, OfErr(r.out.err.value))); }
    case Tap(tap, _, _, tapOutput, _) =>
      AskIsQuiet(o, r.world, WriteTap(tap, OfValue(r.out.output)));
      var w1 := if tapOutput then Ask(o, r.world, WriteTap(tap, OfValue(r.out.output))) else r.world;
      if r.out.err.Some? {
        AskIsQuiet(o, w1, WriteTap(tap, OfErr(r.out.err.value)));
        QuietTransitive(r.world, w1, Ask(o, w1, WriteTap(tap, OfErr(r.out.err.value))));
      }
    case _ =>
  }

  lemma ReturnAccounted(o: Oracle, w: Trace, w1: Trace, r: Reply, back: Query)
    requires Quiet(w, w1) && Accounted(w1, r) && back.ReturnToPool?
    ensures Accounted(w, r.(world := Ask(o, r.world, back)))
  {
    var r' := r.(world := Ask(o, r.world, back));
    AskIsQuiet(o, r.world, back);
    AccountedThenQuiet(w1, r, r');
    QuietThenAccounted(w, w1, r');
  }

  /** Main result for fns: no part of a runner swallows an error or calls the business fn twice. */
  lemma {:induction false} FnAccounted(o: Oracle, w: Trace, ctx: Ctx, f: Fn, input: Value)
    ensures Accounted(w, InvokeFn(o, w, ctx, f, input))
    decreases f, 0
  {
    hide Flatten, Before, After, InvokeLeaf, InvokeMw, BaseCalls, Inits;
    match f
    case Base(id) =>
      var q := CallBase(id, ctx, input);
      Recorded(w, Event(q, o(w, q)));
    case Identity =>
      Recorded(w, Event(CallIdentity(input), NO_ANSWER));
    case Wrap(m, g) =>
      InvokeIsLayers(o, w, ctx, m, input, g);
      LayersAccounted(o, w, ctx, Flatten(m), input, g);
    case Loader(inner) =>
      if inner.Some? { FnAccounted(o, w, ctx, inner.value, input); }
    case Pool(pool, members) =>
      var q := TakeFromPool(pool, |members|);
      AskIsQuiet(o, w, q);
      var taken, w1 := o(w, q).value, Ask(o, w, q);
      if taken.Int? && 0 <= taken.n < |members| {
        FnAccounted(o, w1, ctx, members[taken.n], input);
        ReturnAccounted(o, w, w1, InvokeFn(o, w1, ctx, members[taken.n], input), ReturnToPool(pool, taken.n));
      }
  }

  /** The same for a stack of middleware around a fn. */
  lemma {:induction false} LayersAccounted(
    o: Oracle, w: Trace, ctx: Ctx, leaves: seq<Leaf>, input: Value, f: Fn)
    ensures Accounted(w, Layers(o, w, ctx, leaves, input, f))
    decreases f, 1 + |leaves|
  {
    if leaves == [] {
      FnAccounted(o, w, ctx, f, input);
    } else {
      BeforeIsQuiet(o, w, ctx, leaves[0], input);
      match Before(o, w, ctx, leaves[0], input)
      case Halt(_) =>
      case Down(c, i, w1) =>
        var r := Layers(o, w1, c, leaves[1..], i, f);
        LayersAccounted(o, w1, c, leaves[1..], i, f);
        AfterKeepsErrors(o, ctx, leaves[0], r);
        AccountedThenQuiet(w1, r, After(o, ctx, leaves[0], r));
        QuietThenAccounted(w, w1, After(o, ctx, leaves[0], r));
    }
  }

  // ---- settlements are none of a fn's business ------------------------------------------

  /** Two outside worlds that differ at most in how settlements go. */
  ghost predicate AgreeButSettling(o: Oracle, o': Oracle) {
    forall w: Trace, q: Query :: !q.Settle? ==> o(w, q) == o'(w, q)
  }

  lemma BeforeIgnoresSettling(o: Oracle, o': Oracle, w: Trace, ctx: Ctx, leaf: Leaf, input: Value)
    requires AgreeButSettling(o, o')
    ensures Before(o, w, ctx, leaf, input) == Before(o', w, ctx, leaf, input)
  {
    hide FirstInit, Collected;
  }

  lemma AfterIgnoresSettling(o: Oracle, o': Oracle, ctx: Ctx, leaf: Leaf, r: Reply)
    requires AgreeButSettling(o, o')
    ensures After(o, ctx, leaf, r) == After(o', ctx, leaf, r)
  {
    hide Collected;
  }

  /** No fn settles anything itself, so no fn can tell how a settlement would go. */
  lemma {:induction false} FnIgnoresSettling(o: Oracle, o': Oracle, w: Trace, ctx: Ctx, f: Fn, input: Value)
    requires AgreeButSettling(o, o')
    ensures InvokeFn(o, w, ctx, f, input) == InvokeFn(o', w, ctx, f, input)
    decreases f, 0
  {
    hide Flatten, Before, After, InvokeLeaf, InvokeMw;
    match f
    case Base(_) =>
    case Identity =>
    case Wrap(m, g) =>
      InvokeIsLayers(o, w, ctx, m, input, g);
      InvokeIsLayers(o', w, ctx, m, input, g);
      LayersIgnoreSettling(o, o', w, ctx, Flatten(m), input, g);
    case Loader(inner) =>
      if inner.Some? { FnIgnoresSettling(o, o', w, ctx, inner.value, input); }
    case Pool(pool, members) =>
      var q := TakeFromPool(pool, |members|);
      var taken, w1 := o(w, q).value, Ask(o, w, q);
      if taken.Int? && 0 <= taken.n < |members| {
        FnIgnoresSettling(o, o', w1, ctx, members[taken.n], input);
      }
  }

  lemma {:induction false} LayersIgnoreSettling(
    o: Oracle, o': Oracle, w: Trace, ctx: Ctx, leaves: seq<Leaf>, input: Value, f: Fn)
    requires AgreeButSettling(o, o')
    ensures Layers(o, w, ctx, leaves, input, f) == Layers(o', w, ctx, leaves, input, f)
    decreases f, 1 + |leaves|
  {
    hide Before, After, InvokeFn;
    if leaves == [] {
      FnIgnoresSettling(o, o', w, ctx, f, input);
    } else {
      BeforeIgnoresSettling(o, o', w, ctx, leaves[0], input);
      match Before(o, w, ctx, leaves[0], input)
      case Halt(_) =>
      case Down(c, i, w1) =>
        LayersIgnoreSettling(o, o', w1, c, leaves[1..], i, f);
        AfterIgnoresSettling(o, o', ctx, leaves[0], Layers(o, w1, c, leaves[1..], i, f));
    }
  }

  /** The three readings of the promise a caller needs. */
  lemma ExactlyOnceOnSuccess(o: Oracle, w: Trace, ctx: Ctx, f: Fn, input: Value)
    ensures var r := InvokeFn(o, w, ctx, f, input);
            && w <= r.world
            && |BaseCalls(r.world[|w|..])| <= 1
            && (r.out.err.None? ==> |BaseCalls(r.world[|w|..])| == 1)
            && ((exists e :: e in BaseCalls(r.world[|w|..]) && e.answer.err.Some?) ==> r.out.err.Some?)
  {
    FnAccounted(o, w, ctx, f, input);
    var r := InvokeFn(o, w, ctx, f, input);
    assert r.world == w + r.world[|w|..];
    BaseCallsAppend(w, r.world[|w|..]);
  }
}
