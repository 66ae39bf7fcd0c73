/**
 What each layer does around a business fn, written out: everything that is asked, in order, and
 what comes back. `Wrap(Layer(leaf), Base(b))` is invoked; the events of the trace say what was
 asked and what was answered.
 */
module LeafFacts {
  import opened Values
  import opened World
  import opened Components

  function Through(o: Oracle, w: Trace, ctx: Ctx, leaf: Leaf, b: nat, input: Value): Reply {
    InvokeFn(o, w, ctx, Wrap(Layer(leaf), Base(b)), input)
  }

  lemma ThroughIsLeaf(o: Oracle, w: Trace, ctx: Ctx, leaf: Leaf, b: nat, input: Value)
    ensures Through(o, w, ctx, leaf, b, input) == InvokeLeaf(o, w, ctx, leaf, input, Base(b))
  {
    assert InvokeFn(o, w, ctx, Wrap(Layer(leaf), Base(b)), input) == InvokeMw(o, w, ctx, Layer(leaf), input, Base(b));
  }

  function If(enabled: bool, q: Query): seq<Query> {
    if enabled then [q] else []
  }

  // ---- layers that ask nothing themselves -------------------------------------------------

  /** The fn gets the value under the key, nil if there is none, and only maps are taken apart. */
  lemma KeyFacts(o: Oracle, w: Trace, ctx: Ctx, key: string, b: nat, input: Value)
    ensures var r := Through(o, w, ctx, Key(key), b, input);
            && w <= r.world
            && (!input.Map? ==> r == Reply(Outcome(Nil, Some(InputNotMap)), w))
            && (input.Map? ==>
                  && Asked(w, r.world) == [CallBase(b, ctx, if key in input.m.Keys then input.m[key] else Nil)]
                  && r.out == Outcome(AnswerAt(r.world, |w|).value, AnswerAt(r.world, |w|).err))
  {
    ThroughIsLeaf(o, w, ctx, Key(key), b, input);
    AskedNothing(w);
    if input.Map? {
      var q := CallBase(b, ctx, if key in input.m then input.m[key] else Nil);
      AskedMore(w, w, Event(q, o(w, q)));
    }
  }

  /** The fn runs under a context with the deadline. */
  lemma DeadlineFacts(o: Oracle, w: Trace, ctx: Ctx, duration: int, b: nat, input: Value)
    ensures var r := Through(o, w, ctx, Deadline(duration), b, input);
            && w <= r.world
            && Asked(w, r.world) == [CallBase(b, WithTimeout(ctx, duration), input)]
            && r.out == Outcome(AnswerAt(r.world, |w|).value, AnswerAt(r.world, |w|).err)
  {
    ThroughIsLeaf(o, w, ctx, Deadline(duration), b, input);
    AskedNothing(w);
    var q := CallBase(b, WithTimeout(ctx, duration), input);
    AskedMore(w, w, Event(q, o(w, q)));
  }

  lemma ForwardFacts(o: Oracle, w: Trace, ctx: Ctx, b: nat, input: Value)
    ensures var r := Through(o, w, ctx, Forward, b, input);
            && w <= r.world
            && Asked(w, r.world) == [CallBase(b, ctx, input)]
            && r.out == Outcome(AnswerAt(r.world, |w|).value, AnswerAt(r.world, |w|).err)
  {
    ThroughIsLeaf(o, w, ctx, Forward, b, input);
    AskedNothing(w);
    AskedMore(w, w, Event(CallBase(b, ctx, input), o(w, CallBase(b, ctx, input))));
  }

  // ---- the gate -----------------------------------------------------------------------------

  /** The fn is called once if the gate admits the call, and otherwise the gate's error is returned. */
  lemma GateFacts(o: Oracle, w: Trace, ctx: Ctx, gate: nat, ready: bool, b: nat, input: Value)
    ensures var r := Through(o, w, ctx, Gate(gate, ready), b, input);
            && w <= r.world
            && (if !ready then r == Reply(Outcome(Nil, Some(NilPanic)), w)
                else if AnswerAt(r.world, |w|).err.Some?
                then Asked(w, r.world) == [Admit(gate)] && r.out == Outcome(Nil, AnswerAt(r.world, |w|).err)
                else
                  && Asked(w, r.world) == [Admit(gate), CallBase(b, ctx, input)]
                  && r.out == Outcome(AnswerAt(r.world, |w| + 1).value, AnswerAt(r.world, |w| + 1).err))
  {
    ThroughIsLeaf(o, w, ctx, Gate(gate, ready), b, input);
    AskedNothing(w);
    var w1 := Ask(o, w, Admit(gate));
    AskedMore(w, w, Event(Admit(gate), o(w, Admit(gate))));
    AskedMore(w, w1, Event(CallBase(b, ctx, input), o(w1, CallBase(b, ctx, input))));
  }

  // ---- tap ------------------------------------------------------------------------------------

  /**
   A configured tap starts its child, writes the input before the call and the output and the error
   after it, as far as they are tapped, and returns the fn's own output and error.
   */
  lemma TapFacts(
    o: Oracle, w: Trace, ctx: Ctx, tap: nat, tapInput: bool, tapOutput: bool, tapError: bool, b: nat, input: Value)
    ensures var r := Through(o, w, ctx, Tap(tap, true, tapInput, tapOutput, tapError), b, input);
            && w <= r.world
            && (if AnswerAt(r.world, |w|).err.Some?
                then Asked(w, r.world) == [StartTap(tap)] && r.out == Outcome(Nil, AnswerAt(r.world, |w|).err)
                else
                  var a := AnswerAt(r.world, |w| + (if tapInput then 2 else 1));
                  && Asked(w, r.world) ==
                     [StartTap(tap)] + If(tapInput, WriteTap(tap, OfValue(input))) + [CallBase(b, ctx, input)]
                     + If(tapOutput, WriteTap(tap, OfValue(a.value)))
                     + (if a.err.Some? && tapError then [WriteTap(tap, OfErr(a.err.value))] else [])
                  && r.out == Outcome(a.value, a.err))
  {
    TapShape(o, w, ctx, tap, tapInput, tapOutput, tapError, b, input);
    TapHeadFacts(o, w, ctx, tap, tapInput, b, input);
    var w3 := UpToCall(o, w, ctx, tap, tapInput, b, input);
    var a := w3[|w3| - 1].answer;
    hide Asked, Through, AfterLines, UpToCall, If;
    TapTailFacts(o, w, w3, tap, tapOutput, tapError, Outcome(a.value, a.err));
  }

  /** The trace up to and including the call, the start having succeeded. */
  function UpToCall(o: Oracle, w: Trace, ctx: Ctx, tap: nat, tapInput: bool, b: nat, input: Value): (w3: Trace)
    ensures w3 != []
  {
    var w1 := Ask(o, w, StartTap(tap));
    var w2 := if tapInput then Ask(o, w1, WriteTap(tap, OfValue(input))) else w1;
    Ask(o, w2, CallBase(b, ctx, input))
  }

  /** And the lines after it. */
  function AfterLines(o: Oracle, w3: Trace, tap: nat, tapOutput: bool, tapError: bool, out: Outcome): Trace {
    var w4 := if tapOutput then Ask(o, w3, WriteTap(tap, OfValue(out.output))) else w3;
    if out.err.Some? && tapError then Ask(o, w4, WriteTap(tap, OfErr(out.err.value))) else w4
  }

  lemma TapShape(
    o: Oracle, w: Trace, ctx: Ctx, tap: nat, tapInput: bool, tapOutput: bool, tapError: bool, b: nat, input: Value)
    ensures var r := Through(o, w, ctx, Tap(tap, true, tapInput, tapOutput, tapError), b, input);
            var started := o(w, StartTap(tap)).err;
            if started.Some? then r == Reply(Outcome(Nil, started), w + [Event(StartTap(tap), o(w, StartTap(tap)))])
            else
              var w3 := UpToCall(o, w, ctx, tap, tapInput, b, input);
              var a := w3[|w3| - 1].answer;
              r == Reply(Outcome(a.value, a.err), AfterLines(o, w3, tap, tapOutput, tapError, Outcome(a.value, a.err)))
  {
    ThroughIsLeaf(o, w, ctx, Tap(tap, true, tapInput, tapOutput, tapError), b, input);
  }

  lemma TapHeadFacts(o: Oracle, w: Trace, ctx: Ctx, tap: nat, tapInput: bool, b: nat, input: Value)
    ensures var e := Event(StartTap(tap), o(w, StartTap(tap)));
            w <= w + [e] && Asked(w, w + [e]) == [StartTap(tap)] && AnswerAt(w + [e], |w|) == e.answer
    ensures var w3 := UpToCall(o, w, ctx, tap, tapInput, b, input);
            && w <= w3 && |w3| == |w| + (if tapInput then 3 else 2)
            && w3[|w|].answer == o(w, StartTap(tap))
            && Asked(w, w3) ==
               [StartTap(tap)] + If(tapInput, WriteTap(tap, OfValue(input))) + [CallBase(b, ctx, input)]
  {
    hide Asked;
    AskedNothing(w);
    var start, write, call := StartTap(tap), WriteTap(tap, OfValue(input)), CallBase(b, ctx, input);
    AskedMore(w, w, Event(start, o(w, start)));
    var w1 := Ask(o, w, start);
    AskedMore(w, w1, Event(write, o(w1, write)));
    var w2 := if tapInput then Ask(o, w1, write) else w1;
    AskedMore(w, w2, Event(call, o(w2, call)));
  }

  /** The lines after the call. */
  lemma TapTailFacts(
    o: Oracle, w: Trace, w3: Trace, tap: nat, tapOutput: bool, tapError: bool, out: Outcome)
    requires w <= w3
    ensures var w5 := AfterLines(o, w3, tap, tapOutput, tapError, out);
            && w <= w3 <= w5
            && Asked(w, w5) == Asked(w, w3) + If(tapOutput, WriteTap(tap, OfValue(out.output)))
                               + (if out.err.Some? && tapError then [WriteTap(tap, OfErr(out.err.value))] else [])
  {
    hide Asked;
    var output := WriteTap(tap, OfValue(out.output));
    AskedMore(w, w3, Event(output, o(w3, output)));
    if out.err.Some? {
      var w4, error := if tapOutput then Ask(o, w3, output) else w3, WriteTap(tap, OfErr(out.err.value));
      AskedMore(w, w4, Event(error, o(w4, error)));
    }
  }

  lemma UnconfiguredTapFacts(
    o: Oracle, w: Trace, ctx: Ctx, tap: nat, tapInput: bool, tapOutput: bool, tapError: bool, b: nat, input: Value)
    ensures Through(o, w, ctx, Tap(tap, false, tapInput, tapOutput, tapError), b, input)
            == Reply(Outcome(Nil, Some(TapUnconfigured)), w)
  {
    ThroughIsLeaf(o, w, ctx, Tap(tap, false, tapInput, tapOutput, tapError), b, input);
  }

  // ---- jq -------------------------------------------------------------------------------------

  /** The values of an iterator that did not fail. */
  function Emissions(items: seq<Item>): seq<Value>
    requires forall i :: 0 <= i < |items| ==> items[i].Emitted?
  {
    seq(|items|, i requires 0 <= i < |items| => items[i].v)
  }

  /**
   An iterator stands for its first error, if it has one, for its value, if that is the only one,
   and otherwise for the list of its values, which is empty if there are none.
   */
  lemma CollectedFacts(items: seq<Item>)
    ensures forall k :: 0 <= k < |items| && items[k].Failed? && (forall j :: 0 <= j < k ==> items[j].Emitted?) ==>
              Collected(items) == Outcome(Nil, Some(items[k].err))
    ensures (forall i :: 0 <= i < |items| ==> items[i].Emitted?) ==>
              Collected(items) == Outcome(if |items| == 1 then items[0].v else Arr(Emissions(items)), None)
  {
    forall k | 0 <= k < |items| && items[k].Failed? && (forall j :: 0 <= j < k ==> items[j].Emitted?)
      ensures Collected(items) == Outcome(Nil, Some(items[k].err))
    {
      FirstFailureIs(items, k);
    }
    if forall i :: 0 <= i < |items| ==> items[i].Emitted? {
      assert Emissions(items) == seq(|items|, i requires 0 <= i < |items| && items[i].Emitted? => items[i].v);
    }
  }

  lemma {:induction false} FirstFailureIs(items: seq<Item>, k: nat)
    requires k < |items| && items[k].Failed? && forall j :: 0 <= j < k ==> items[j].Emitted?
    ensures FirstFailure(items) == items[k].err
  {
    if k > 0 {
      FirstFailureIs(items[1..], k - 1);
    }
  }

  /** Without code nothing is asked; with code the iterator's value replaces the value. */
  lemma JqApplyFacts(o: Oracle, w: Trace, ctx: Ctx, code: Option<string>, input: Value)
    ensures code == None ==> JqApply(o, w, ctx, code, input) == Reply(Outcome(input, None), w)
    ensures code.Some? ==>
              var r := JqApply(o, w, ctx, code, input);
              && w <= r.world && Asked(w, r.world) == [RunJq(code.value, ctx, input)]
              && r.out == Collected(AnswerAt(r.world, |w|).items)
  {
    AskedNothing(w);
    if code.Some? {
      AskedMore(w, w, Event(RunJq(code.value, ctx, input), o(w, RunJq(code.value, ctx, input))));
    }
  }

  /**
   The input code runs before the fn and the output code after it; the fn gets what the input code
   makes of the input, an error on the way in keeps the fn from being called, and an error of the fn
   is passed on as it is.
   */
  lemma JqFacts(
    o: Oracle, w: Trace, ctx: Ctx, inputCode: Option<string>, outputCode: Option<string>, b: nat, input: Value)
    ensures var r, i := Through(o, w, ctx, Jq(inputCode, outputCode), b, input), JqApply(o, w, ctx, inputCode, input);
            && (i.out.err.Some? ==> r == Reply(Outcome(Nil, i.out.err), i.world))
            && (i.out.err.None? ==>
                  var call := CallBase(b, ctx, i.out.output);
                  var a, w1 := o(i.world, call), i.world + [Event(call, o(i.world, call))];
                  r == if a.err.Some? then Reply(Outcome(a.value, a.err), w1)
                       else JqApply(o, w1, ctx, outputCode, a.value))
  {
    hide JqApply;
    ThroughIsLeaf(o, w, ctx, Jq(inputCode, outputCode), b, input);
  }

  // ---- json -----------------------------------------------------------------------------------

  /** The same for json, except that an error of the fn comes without its output. */
  lemma JsonFacts(
    o: Oracle, w: Trace, ctx: Ctx, inputStrategy: string, outputStrategy: string, b: nat, input: Value)
    ensures var r, i := Through(o, w, ctx, Json(inputStrategy, outputStrategy), b, input),
                        Transcode(o, w, input, inputStrategy);
            && (i.out.err.Some? ==> r == Reply(Outcome(Nil, i.out.err), i.world))
            && (i.out.err.None? ==>
                  var call := CallBase(b, ctx, i.out.output);
                  var a, w1 := o(i.world, call), i.world + [Event(call, o(i.world, call))];
                  r == if a.err.Some? then Reply(Outcome(Nil, a.err), w1)
                       else Transcode(o, w1, a.value, outputStrategy))
  {
    hide Transcode;
    ThroughIsLeaf(o, w, ctx, Json(inputStrategy, outputStrategy), b, input);
  }

  /** What each strategy asks. */
  lemma TranscodeFacts(o: Oracle, w: Trace, v: Value)
    ensures Transcode(o, w, v, "") == Reply(Outcome(v, None), w)
    ensures var r := Transcode(o, w, v, "serialize");
            && w <= r.world && Asked(w, r.world) == [MarshalJson(v)]
            && (AnswerAt(r.world, |w|).err.None? ==> r.out == Outcome(AnswerAt(r.world, |w|).value, None))
            && (AnswerAt(r.world, |w|).err.Some? ==> r.out == Outcome(Nil, AnswerAt(r.world, |w|).err))
    ensures v.Str? ==>
              var r := Transcode(o, w, v, "deserialize");
              && w <= r.world && Asked(w, r.world) == [UnmarshalJson(v.s)]
              && r.out == Outcome(if AnswerAt(r.world, |w|).err.None? then AnswerAt(r.world, |w|).value else v, None)
    ensures !v.Str? ==> Transcode(o, w, v, "deserialize") == Reply(Outcome(Nil, Some(InputNotString)), w)
  {
    assert |"serialize"| == 9 && |"deserialize"| == 11 && |""| == 0;
    AskedNothing(w);
    AskedMore(w, w, Event(MarshalJson(v), o(w, MarshalJson(v))));
    if v.Str? {
      AskedMore(w, w, Event(UnmarshalJson(v.s), o(w, UnmarshalJson(v.s))));
    }
  }

  // ---- kafka ----------------------------------------------------------------------------------

  /** An error goes to the error topic, an output to the success topic, each only if there is one. */
  lemma PublishFacts(o: Oracle, producer: nat, successTopic: string, errorTopic: string, r: Reply)
    ensures var p, n := Publish(o, producer, successTopic, errorTopic, r), |r.world|;
            && r.world <= p.world && p.out.output == r.out.output
            && (match r.out.err
                case Some(e) =>
                  && Asked(r.world, p.world) == If(errorTopic != "", Send(producer, errorTopic, OfErr(e)))
                  && p.out.err == Some(if errorTopic != "" && AnswerAt(p.world, n).err.Some?
                                       then Wrapped(e, AnswerAt(p.world, n).err.value) else e)
                case None =>
                  var sends := successTopic != "" && r.out.output != Nil;
                  && Asked(r.world, p.world) == If(sends, Send(producer, successTopic, OfValue(r.out.output)))
                  && p.out.err == if sends then AnswerAt(p.world, n).err else None)
  {
    AskedNothing(r.world);
    if r.out.err.Some? {
      var q := Send(producer, errorTopic, OfErr(r.out.err.value));
      AskedMore(r.world, r.world, Event(q, o(r.world, q)));
    } else {
      var q := Send(producer, successTopic, OfValue(r.out.output));
      AskedMore(r.world, r.world, Event(q, o(r.world, q)));
    }
  }

  /** The producer is asked for by the first Invoke only, and its answer then stands for good. */
  lemma InitFacts(o: Oracle, w: Trace, producer: nat)
    ensures FirstInit(w, producer).Some? ==>
              InitOnce(o, w, producer) == w && InitError(w, producer) == FirstInit(w, producer).value.err
    ensures FirstInit(w, producer).None? ==>
              && InitOnce(o, w, producer) == w + [Event(InitProducer(producer), o(w, InitProducer(producer)))]
              && InitError(InitOnce(o, w, producer), producer) == o(w, InitProducer(producer)).err
  {
    var e := Event(InitProducer(producer), o(w, InitProducer(producer)));
    assert (w + [e])[..|w|] == w;
  }

  /** Without a producer the fn is not called; with one its result is published. */
  lemma KafkaFacts(
    o: Oracle, w: Trace, ctx: Ctx, producer: nat, successTopic: string, errorTopic: string, b: nat, input: Value)
    ensures var r, w1 := Through(o, w, ctx, Kafka(producer, successTopic, errorTopic), b, input),
                         InitOnce(o, w, producer);
            && (InitError(w1, producer).Some? ==> r == Reply(Outcome(Nil, InitError(w1, producer)), w1))
            && (InitError(w1, producer).None? ==>
                  var call := CallBase(b, ctx, input);
                  var a := o(w1, call);
                  r == Publish(o, producer, successTopic, errorTopic,
                               Reply(Outcome(a.value, a.err), w1 + [Event(call, a)])))
  {
    hide InitOnce, InitError, Publish;
    ThroughIsLeaf(o, w, ctx, Kafka(producer, successTopic, errorTopic), b, input);
  }
}
